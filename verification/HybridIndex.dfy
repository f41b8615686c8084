/**
 The lexical index of a corpus and its BM25 scores.

 The features of a text and the logarithm are parameters; of the logarithm only
 this is used: it is positive above 1.
 */
module HybridIndex {
  import opened Wrappers
  import opened RealFacts
  import opened Texts

  type Features = Text -> seq<Text>

  type Logarithm = real -> real

  ghost predicate LogarithmValid(log: Logarithm) {
    forall x: real :: x > 1.0 ==> log(x) > 0.0
  }

  datatype Chunk = Chunk(id: Text, text: Text)

  datatype Document = Document(length: nat, frequencies: map<Text, nat>)

  datatype Index = Index(
    chunks: map<Text, Chunk>,
    documents: map<Text, Document>,
    documentFrequency: map<Text, nat>,
    average: real,
    count: nat)

  datatype BuildError = NoChunks | DuplicateRevision(id: Text)

  function Get(counts: map<Text, nat>, term: Text): nat {
    if term in counts then counts[term] else 0
  }

  // ------------------------------------------------------------ direct counting

  /** How many of the chunks contain the term. */
  function Containing(features: Features, chunks: seq<Chunk>, term: Text): nat {
    if chunks == [] then 0
    else
      var last := |chunks| - 1;
      Containing(features, chunks[..last], term) + if term in features(chunks[last].text) then 1 else 0
  }

  function TotalLength(features: Features, chunks: seq<Chunk>): nat {
    if chunks == [] then 0
    else TotalLength(features, chunks[..|chunks| - 1]) + |features(chunks[|chunks| - 1].text)|
  }

  predicate DistinctIds(chunks: seq<Chunk>) {
    forall i, j :: 0 <= i < j < |chunks| ==> chunks[i].id != chunks[j].id
  }

  ghost predicate Counts(frequencies: map<Text, nat>, tokens: seq<Text>) {
    forall t :: (t in frequencies <==> t in tokens) && Get(frequencies, t) == multiset(tokens)[t]
  }

  /** The first chunk whose revision was already listed. */
  ghost predicate FirstRepeat(listed: seq<Chunk>, j: nat) {
    && j < |listed|
    && DistinctIds(listed[..j])
    && exists i :: 0 <= i < j && listed[i].id == listed[j].id
  }

  ghost predicate Describes(features: Features, document: Document, chunk: Chunk) {
    document.length == |features(chunk.text)| && Counts(document.frequencies, features(chunk.text))
  }

  /** The maps hold the listed chunks, each under its own id, and nothing else. */
  ghost predicate Holds(features: Features, listed: seq<Chunk>, chunks: map<Text, Chunk>, documents: map<Text, Document>) {
    && DistinctIds(listed)
    && chunks.Keys == documents.Keys
    && (forall i :: 0 <= i < |listed| ==>
          && listed[i].id in chunks
          && chunks[listed[i].id] == listed[i]
          && Describes(features, documents[listed[i].id], listed[i]))
    && (forall id :: id in chunks ==> exists i :: 0 <= i < |listed| && listed[i].id == id)
  }

  ghost predicate CountsDocuments(features: Features, listed: seq<Chunk>, documentFrequency: map<Text, nat>) {
    forall t :: Get(documentFrequency, t) == Containing(features, listed, t) && (t in documentFrequency ==> documentFrequency[t] > 0)
  }

  ghost predicate Indexes(features: Features, listed: seq<Chunk>, index: Index) {
    && listed != []
    && Holds(features, listed, index.chunks, index.documents)
    && CountsDocuments(features, listed, index.documentFrequency)
    && index.count == |listed|
    && index.average == TotalLength(features, listed) as real / |listed| as real
  }

  lemma {:induction false} ContainingBounds(features: Features, chunks: seq<Chunk>, term: Text)
    ensures Containing(features, chunks, term) <= |chunks|
    ensures Containing(features, chunks, term) > 0
            <==> exists i :: 0 <= i < |chunks| && term in features(chunks[i].text)
  {
    if chunks != [] {
      ContainingBounds(features, chunks[..|chunks| - 1], term);
    }
  }

  lemma {:induction false} TotalLengthCovers(features: Features, chunks: seq<Chunk>, i: nat)
    requires i < |chunks|
    ensures TotalLength(features, chunks) >= |features(chunks[i].text)|
  {
    if i < |chunks| - 1 {
      TotalLengthCovers(features, chunks[..|chunks| - 1], i);
    }
  }

  // -------------------------------------------------------------------- building

  method FrequencyMap(tokens: seq<Text>) returns (frequencies: map<Text, nat>)
    ensures Counts(frequencies, tokens)
  {
    frequencies := map[];
    var i := 0;
    while i < |tokens|
      invariant 0 <= i <= |tokens|
      invariant Counts(frequencies, tokens[..i])
    {
      assert tokens[..i + 1] == tokens[..i] + [tokens[i]];
      frequencies := frequencies[tokens[i] := Get(frequencies, tokens[i]) + 1];
      i := i + 1;
    }
    assert tokens[..i] == tokens;
  }

  /** Counts every listed term once more. */
  method CountTerms(start: map<Text, nat>, terms: set<Text>) returns (counts: map<Text, nat>)
    ensures forall t :: Get(counts, t) == Get(start, t) + if t in terms then 1 else 0
    ensures forall t :: t in counts <==> t in start || t in terms
  {
    counts := start;
    var left := terms;
    while left != {}
      invariant left <= terms
      invariant forall t :: Get(counts, t) == Get(start, t) + if t in terms - left then 1 else 0
      invariant forall t :: t in counts <==> t in start || t in terms - left
    {
      var term :| term in left;
      counts := counts[term := Get(counts, term) + 1];
      left := left - {term};
    }
  }

  lemma HoldsOneMore(features: Features, listed: seq<Chunk>, chunk: Chunk,
                     chunks: map<Text, Chunk>, documents: map<Text, Document>, document: Document)
    requires Holds(features, listed, chunks, documents)
    requires chunk.id !in chunks && Describes(features, document, chunk)
    ensures Holds(features, listed + [chunk], chunks[chunk.id := chunk], documents[chunk.id := document])
  {
    hide Describes;
    var more := listed + [chunk];
    forall i, j | 0 <= i < j < |more| ensures more[i].id != more[j].id {
      assert i < |listed| && more[i] == listed[i];
      assert j < |listed| ==> more[j] == listed[j];
    }
    var grown := chunks[chunk.id := chunk];
    forall id | id in grown ensures exists i :: 0 <= i < |more| && more[i].id == id {
      if id == chunk.id {
        assert more[|listed|].id == id;
      } else {
        var i :| 0 <= i < |listed| && listed[i].id == id;
        assert more[i] == listed[i];
      }
    }
  }

  lemma CountsOneMore(features: Features, listed: seq<Chunk>, chunk: Chunk,
                      before: map<Text, nat>, terms: set<Text>, after: map<Text, nat>)
    requires CountsDocuments(features, listed, before)
    requires forall t :: t in terms <==> t in features(chunk.text)
    requires forall t :: Get(after, t) == Get(before, t) + if t in terms then 1 else 0
    requires forall t :: t in after <==> t in before || t in terms
    ensures CountsDocuments(features, listed + [chunk], after)
  {
    var more := listed + [chunk];
    assert more[..|listed|] == listed;
    forall t
      ensures Get(after, t) == Containing(features, more, t)
      ensures t in after ==> after[t] > 0
    {
      assert Get(before, t) == Containing(features, listed, t);
    }
  }

  /** Adds the next chunk to the maps. */
  method IndexChunk(features: Features, listed: seq<Chunk>, i: nat,
                    chunks: map<Text, Chunk>, documents: map<Text, Document>, documentFrequency: map<Text, nat>)
    returns (chunks': map<Text, Chunk>, documents': map<Text, Document>, documentFrequency': map<Text, nat>, length: nat)
    requires i < |listed| && listed[i].id !in chunks
    requires Holds(features, listed[..i], chunks, documents)
    requires CountsDocuments(features, listed[..i], documentFrequency)
    ensures Holds(features, listed[..i + 1], chunks', documents')
    ensures CountsDocuments(features, listed[..i + 1], documentFrequency')
    ensures TotalLength(features, listed[..i + 1]) == TotalLength(features, listed[..i]) + length
  {
    hide Holds, CountsDocuments, Counts, TotalLength;
    var chunk := listed[i];
    var tokens := features(chunk.text);
    length := |tokens|;
    var frequencies := FrequencyMap(tokens);
    documentFrequency' := CountTerms(documentFrequency, frequencies.Keys);
    CountsKeys(frequencies, tokens);
    CountsOneMore(features, listed[..i], chunk, documentFrequency, frequencies.Keys, documentFrequency');
    var document := Document(length, frequencies);
    HoldsOneMore(features, listed[..i], chunk, chunks, documents, document);
    LengthOneMore(features, listed, i);
    assert listed[..i + 1] == listed[..i] + [chunk];
    chunks' := chunks[chunk.id := chunk];
    documents' := documents[chunk.id := document];
  }

  /**
   Either the index that agrees with counting the corpus directly, or the error:
   no chunks, or the first revision that is listed a second time.
   */
  method BuildHybridIndex(features: Features, listed: seq<Chunk>) returns (result: Result<Index, BuildError>)
    ensures result.Success? <==> listed != [] && DistinctIds(listed)
    ensures result.Success? ==> Indexes(features, listed, result.value)
    ensures result.Failure? && listed == [] ==> result.error == NoChunks
    ensures result.Failure? && listed != [] ==>
              exists j: nat :: FirstRepeat(listed, j) && result.error == DuplicateRevision(listed[j].id)
  {
    if listed == [] {
      return Failure(NoChunks);
    }
    hide Holds, CountsDocuments, Counts, TotalLength, DistinctIds, FirstRepeat;
    var chunks: map<Text, Chunk> := map[];
    var documents: map<Text, Document> := map[];
    var documentFrequency: map<Text, nat> := map[];
    var total := 0;
    EmptyIndex(features);
    var i := 0;
    while i < |listed|
      invariant 0 <= i <= |listed|
      invariant Holds(features, listed[..i], chunks, documents)
      invariant CountsDocuments(features, listed[..i], documentFrequency)
      invariant total == TotalLength(features, listed[..i])
    {
      if listed[i].id in chunks {
        ListedTwice(features, listed, i, chunks, documents);
        return Failure(DuplicateRevision(listed[i].id));
      }
      var length;
      chunks, documents, documentFrequency, length :=
        IndexChunk(features, listed, i, chunks, documents, documentFrequency);
      total := total + length;
      i := i + 1;
    }
    assert listed[..i] == listed;
    HeldDistinct(features, listed, chunks, documents);
    result := Success(Index(chunks, documents, documentFrequency, total as real / |listed| as real, |listed|));
  }

  lemma EmptyIndex(features: Features)
    ensures Holds(features, [], map[], map[])
    ensures CountsDocuments(features, [], map[])
    ensures TotalLength(features, []) == 0
  {
  }

  lemma CountsKeys(frequencies: map<Text, nat>, tokens: seq<Text>)
    requires Counts(frequencies, tokens)
    ensures forall t :: t in frequencies.Keys <==> t in tokens
  {
  }

  lemma LengthOneMore(features: Features, listed: seq<Chunk>, i: nat)
    requires i < |listed|
    ensures TotalLength(features, listed[..i + 1]) == TotalLength(features, listed[..i]) + |features(listed[i].text)|
  {
    assert listed[..i + 1][..i] == listed[..i];
  }

  lemma HeldDistinct(features: Features, listed: seq<Chunk>, chunks: map<Text, Chunk>, documents: map<Text, Document>)
    requires Holds(features, listed, chunks, documents)
    ensures DistinctIds(listed)
  {
  }

  lemma ListedTwice(features: Features, listed: seq<Chunk>, j: nat, chunks: map<Text, Chunk>, documents: map<Text, Document>)
    requires j < |listed| && Holds(features, listed[..j], chunks, documents) && listed[j].id in chunks
    ensures FirstRepeat(listed, j)
    ensures !DistinctIds(listed)
  {
    var i :| 0 <= i < j && listed[..j][i].id == listed[j].id;
    assert listed[i].id == listed[j].id;
  }

  // ------------------------------------------------------------------------ BM25

  const K1: real := 1.2
  const B: real := 0.75

  /** An average is positive as soon as one document has a feature. */
  ghost predicate Averaged(index: Index) {
    forall id :: id in index.documents && index.documents[id].length > 0 ==> index.average > 0.0
  }

  function Idf(log: Logarithm, count: nat, matching: nat): real {
    log(1.0 + (count as real - matching as real + 0.5) / (matching as real + 0.5))
  }

  function Weight(frequency: nat, length: nat, average: real): real
    requires frequency > 0 && average > 0.0
  {
    var norm := 1.0 - B + B * (length as real / average);
    QuotientPositive(length as real, average);
    var denominator := frequency as real + K1 * norm;
    frequency as real * (K1 + 1.0) / denominator
  }

  ghost function TermScore(log: Logarithm, index: Index, document: Document, term: Text): real
    requires index.average > 0.0
  {
    var frequency := Get(document.frequencies, term);
    if frequency == 0 then 0.0
    else Idf(log, index.count, Get(index.documentFrequency, term)) * Weight(frequency, document.length, index.average)
  }

  ghost function TermScores(log: Logarithm, index: Index, document: Document, terms: seq<Text>): real
    requires index.average > 0.0
  {
    if terms == [] then 0.0
    else
      TermScores(log, index, document, terms[..|terms| - 1])
      + TermScore(log, index, document, terms[|terms| - 1])
  }

  ghost function Bm25(log: Logarithm, index: Index, id: Text, terms: seq<Text>): real
    requires Averaged(index)
  {
    if id !in index.documents || index.documents[id].length == 0 then 0.0
    else TermScores(log, index, index.documents[id], terms)
  }

  lemma WeightPositive(frequency: nat, length: nat, average: real)
    requires frequency > 0 && average > 0.0
    ensures Weight(frequency, length, average) > 0.0
  {
    QuotientPositive(length as real, average);
    var denominator := frequency as real + K1 * (1.0 - B + B * (length as real / average));
    ProductPositive(frequency as real, K1 + 1.0);
    QuotientPositive(frequency as real * (K1 + 1.0), denominator);
  }

  lemma IdfPositive(log: Logarithm, count: nat, matching: nat)
    requires LogarithmValid(log) && matching <= count
    ensures Idf(log, count, matching) > 0.0
  {
    QuotientPositive(count as real - matching as real + 0.5, matching as real + 0.5);
  }

  lemma {:induction false} TermScoresPositive(log: Logarithm, index: Index, document: Document, terms: seq<Text>)
    requires LogarithmValid(log) && index.average > 0.0
    requires forall t :: Get(index.documentFrequency, t) <= index.count
    ensures TermScores(log, index, document, terms) >= 0.0
    ensures TermScores(log, index, document, terms) > 0.0
            <==> exists i :: 0 <= i < |terms| && Get(document.frequencies, terms[i]) > 0
  {
    if terms != [] {
      var last := |terms| - 1;
      TermScoresPositive(log, index, document, terms[..last]);
      var frequency := Get(document.frequencies, terms[last]);
      if frequency > 0 {
        IdfPositive(log, index.count, Get(index.documentFrequency, terms[last]));
        WeightPositive(frequency, document.length, index.average);
        ProductPositive(Idf(log, index.count, Get(index.documentFrequency, terms[last])),
                        Weight(frequency, document.length, index.average));
      }
    }
  }

  lemma IndexAveraged(features: Features, listed: seq<Chunk>, index: Index)
    requires Indexes(features, listed, index)
    ensures Averaged(index)
  {
    forall id | id in index.documents && index.documents[id].length > 0 ensures index.average > 0.0 {
      var i :| 0 <= i < |listed| && listed[i].id == id;
      TotalLengthCovers(features, listed, i);
      QuotientPositive(TotalLength(features, listed) as real, |listed| as real);
    }
  }

  /** A score is positive exactly when the chunk is indexed and contains one of the
      terms, and never negative. */
  lemma Bm25PositiveIff(features: Features, listed: seq<Chunk>, index: Index, log: Logarithm, id: Text, terms: seq<Text>)
    requires Indexes(features, listed, index) && LogarithmValid(log)
    requires (IndexAveraged(features, listed, index); Averaged(index))
    ensures Bm25(log, index, id, terms) >= 0.0
    ensures Bm25(log, index, id, terms) > 0.0
            <==> exists i, k :: 0 <= i < |listed| && 0 <= k < |terms| && listed[i].id == id
                                && terms[k] in features(listed[i].text)
  {
    if id in index.documents {
      var i :| 0 <= i < |listed| && listed[i].id == id;
      OnlyHome(listed, i);
      var document := index.documents[id];
      assert Describes(features, document, listed[i]);
      forall t ensures Get(document.frequencies, t) > 0 <==> t in features(listed[i].text) {
        assert t in multiset(features(listed[i].text)) <==> t in features(listed[i].text);
      }
      forall t ensures Get(index.documentFrequency, t) <= index.count {
        ContainingBounds(features, listed, t);
      }
      if document.length > 0 {
        TermScoresPositive(log, index, document, terms);
      }
    }
  }

  lemma OnlyHome(listed: seq<Chunk>, i: nat)
    requires DistinctIds(listed) && i < |listed|
    ensures forall j :: 0 <= j < |listed| && listed[j].id == listed[i].id ==> j == i
  {
  }

  // ------------------------------------------------------------ what scores depend on

  /** What the length of a document adds to the denominator. */
  function LengthPart(length: nat, average: real): real
    requires average > 0.0
  {
    K1 * (1.0 - B + B * (length as real / average))
  }

  lemma LengthPartGrows(length: nat, longer: nat, average: real)
    requires average > 0.0
    ensures LengthPart(length, average) > 0.0
    ensures length < longer ==> LengthPart(length, average) < LengthPart(longer, average)
  {
    QuotientPositive(length as real, average);
    if length < longer {
      QuotientGrows(length as real, longer as real, average);
    }
  }

  lemma SaturationGrows(a: real, b: real, c: real, d: real)
    requires 0.0 < a <= b && 0.0 < d <= c && (a < b || d < c)
    ensures a * (K1 + 1.0) / (a + c) < b * (K1 + 1.0) / (b + d)
  {
    QuotientsCompare(a * (K1 + 1.0), a + c, b * (K1 + 1.0), b + d);
    ProductsCompare(a, b, c, d);
    CrossProducts(a, b, c, d);
  }

  lemma ProductsCompare(a: real, b: real, c: real, d: real)
    requires 0.0 < a <= b && 0.0 < d <= c && (a < b || d < c)
    ensures a * d < b * c
  {
    ScaleCompares(a, b, d);
    ScaleCompares(d, c, b);
    assert d * b == b * d && c * b == b * c;
    assert a < b ==> a * d < b * d;
    assert d < c ==> b * d < b * c;
    assert a * d <= b * d <= b * c;
  }

  lemma CrossProducts(a: real, b: real, c: real, d: real)
    requires a * d < b * c
    ensures a * (K1 + 1.0) * (b + d) < b * (K1 + 1.0) * (a + c)
  {
    assert a * (K1 + 1.0) * (b + d) == (K1 + 1.0) * (a * b) + (K1 + 1.0) * (a * d);
    assert b * (K1 + 1.0) * (a + c) == (K1 + 1.0) * (a * b) + (K1 + 1.0) * (b * c);
  }

  /** A weight rises with the frequency and falls with the length. */
  lemma WeightCompares(f: nat, length: nat, g: nat, other: nat, average: real)
    requires 0 < f <= g && other <= length && (f < g || other < length) && average > 0.0
    ensures Weight(f, length, average) < Weight(g, other, average)
  {
    LengthPartGrows(other, length, average);
    LengthPartGrows(length, length, average);
    SaturationGrows(f as real, g as real, LengthPart(length, average), LengthPart(other, average));
  }

  /** One occurrence in a document of average length weighs exactly one, in one of
      twice that length 2.2 in 3.1, and no number of occurrences weighs as much as 2.2. */
  lemma WeightScale(f: nat, length: nat, average: real)
    requires f > 0 && average > 0.0
    ensures Weight(f, length, average) < 2.2
    ensures f == 1 && length as real == average ==> Weight(f, length, average) == 1.0
    ensures f == 1 && length as real == 2.0 * average ==> Weight(f, length, average) == 2.2 / 3.1
  {
    LengthPartGrows(length, length, average);
    var c := LengthPart(length, average);
    QuotientsCompare(f as real * (K1 + 1.0), f as real + c, K1 + 1.0, 1.0);
    if length as real == average {
      QuotientBound(average, average);
    }
    if length as real == 2.0 * average {
      QuotientsCompare(2.0 * average, average, 2.0, 1.0);
    }
  }

  /** The score of a single term from its counts. */
  function OneTerm(log: Logarithm, count: nat, matching: nat, frequency: nat, length: nat, average: real): real
    requires frequency > 0 && average > 0.0
  {
    Idf(log, count, matching) * Weight(frequency, length, average)
  }

  lemma OneTermScores(log: Logarithm, index: Index, document: Document, term: Text)
    requires index.average > 0.0
    ensures TermScores(log, index, document, [term]) == TermScore(log, index, document, term)
  {
    hide TermScore;
    assert [term][..0] == [];
    assert TermScores(log, index, document, []) == 0.0;
  }

  lemma DescribedTerm(features: Features, document: Document, chunk: Chunk, term: Text)
    requires Describes(features, document, chunk) && term in features(chunk.text)
    ensures Get(document.frequencies, term) == multiset(features(chunk.text))[term] > 0
    ensures document.length == |features(chunk.text)| > 0
  {
    assert term in multiset(features(chunk.text));
  }

  /** What one term scores in the chunk listed at `i`. */
  lemma OneTermScore(features: Features, listed: seq<Chunk>, index: Index, log: Logarithm, i: nat, term: Text)
    requires Indexes(features, listed, index) && i < |listed| && term in features(listed[i].text)
    requires (IndexAveraged(features, listed, index); Averaged(index))
    ensures index.average > 0.0
    ensures multiset(features(listed[i].text))[term] > 0
    ensures Bm25(log, index, listed[i].id, [term])
            == OneTerm(log, |listed|, Containing(features, listed, term),
                       multiset(features(listed[i].text))[term], |features(listed[i].text)|, index.average)
  {
    IndexedTerm(features, listed, index, i, term);
    hide Indexes, Averaged, OneTerm, TermScores, TermScore, Containing, Get;
    var document := index.documents[listed[i].id];
    OneTermScores(log, index, document, term);
    CountedTerm(log, index, document, term, Containing(features, listed, term), multiset(features(listed[i].text))[term]);
  }

  lemma CountedTerm(log: Logarithm, index: Index, document: Document, term: Text, matching: nat, frequency: nat)
    requires index.average > 0.0 && frequency > 0
    requires Get(document.frequencies, term) == frequency && Get(index.documentFrequency, term) == matching
    ensures TermScore(log, index, document, term)
            == OneTerm(log, index.count, matching, frequency, document.length, index.average)
  {
    hide Idf, Weight;
  }

  lemma IndexedTerm(features: Features, listed: seq<Chunk>, index: Index, i: nat, term: Text)
    requires Indexes(features, listed, index) && i < |listed| && term in features(listed[i].text)
    ensures listed[i].id in index.documents && index.count == |listed| && index.average > 0.0
    ensures var document := index.documents[listed[i].id];
            && Get(document.frequencies, term) == multiset(features(listed[i].text))[term] > 0
            && document.length == |features(listed[i].text)| > 0
    ensures Get(index.documentFrequency, term) == Containing(features, listed, term)
  {
    IndexAveraged(features, listed, index);
    var document := index.documents[listed[i].id];
    assert Describes(features, document, listed[i]);
    DescribedTerm(features, document, listed[i], term);
  }

  lemma IdfFalls(log: Logarithm, count: nat, rare: nat, common: nat)
    requires LogarithmRises(log) && rare < common <= count
    ensures Idf(log, count, rare) > Idf(log, count, common)
  {
    OddsFall(count as real, rare as real, common as real);
  }

  lemma RarerOneTerm(log: Logarithm, count: nat, rare: nat, common: nat, frequency: nat, length: nat, average: real)
    requires LogarithmRises(log) && rare < common <= count && frequency > 0 && average > 0.0
    ensures OneTerm(log, count, rare, frequency, length, average) > OneTerm(log, count, common, frequency, length, average)
  {
    IdfFalls(log, count, rare, common);
    WeightPositive(frequency, length, average);
    hide Idf, Weight;
    ScaleCompares(Idf(log, count, common), Idf(log, count, rare), Weight(frequency, length, average));
  }

  lemma DenserOneTerm(log: Logarithm, count: nat, matching: nat, f: nat, length: nat, g: nat, longer: nat, average: real)
    requires LogarithmValid(log) && matching <= count && average > 0.0
    requires 0 < g <= f && length <= longer && (g < f || length < longer)
    ensures OneTerm(log, count, matching, f, length, average) > OneTerm(log, count, matching, g, longer, average)
  {
    IdfPositive(log, count, matching);
    WeightCompares(g, longer, f, length, average);
    hide Idf, Weight;
    ScaleCompares(Weight(g, longer, average), Weight(f, length, average), Idf(log, count, matching));
  }

  /** Of two terms that a chunk contains equally often, the one that fewer chunks
      contain scores more. */
  lemma RarerTermScoresMore(features: Features, listed: seq<Chunk>, index: Index, log: Logarithm, i: nat,
                            rare: Text, common: Text)
    requires Indexes(features, listed, index) && LogarithmRises(log) && i < |listed|
    requires (IndexAveraged(features, listed, index); Averaged(index))
    requires rare in features(listed[i].text) && common in features(listed[i].text)
    requires multiset(features(listed[i].text))[rare] == multiset(features(listed[i].text))[common]
    requires Containing(features, listed, rare) < Containing(features, listed, common)
    ensures Bm25(log, index, listed[i].id, [rare]) > Bm25(log, index, listed[i].id, [common])
  {
    hide Indexes, Averaged, Bm25, OneTerm, Containing, LogarithmRises;
    OneTermScore(features, listed, index, log, i, rare);
    OneTermScore(features, listed, index, log, i, common);
    ContainingBounds(features, listed, common);
    var tokens := features(listed[i].text);
    RarerOneTerm(log, |listed|, Containing(features, listed, rare), Containing(features, listed, common),
                 multiset(tokens)[rare], |tokens|, index.average);
  }

  /** Of two chunks that contain a term, one that contains it no less often and is no
      longer, and is better in one of the two, scores more. */
  lemma DenserChunkScoresMore(features: Features, listed: seq<Chunk>, index: Index, log: Logarithm, i: nat, j: nat, term: Text)
    requires Indexes(features, listed, index) && LogarithmValid(log) && i < |listed| && j < |listed|
    requires (IndexAveraged(features, listed, index); Averaged(index))
    requires term in features(listed[i].text) && term in features(listed[j].text)
    requires var a, b := features(listed[i].text), features(listed[j].text);
             && multiset(a)[term] >= multiset(b)[term] && |a| <= |b|
             && (multiset(a)[term] > multiset(b)[term] || |a| < |b|)
    ensures Bm25(log, index, listed[i].id, [term]) > Bm25(log, index, listed[j].id, [term])
  {
    hide Indexes, Averaged, Bm25, OneTerm, Containing, LogarithmValid;
    OneTermScore(features, listed, index, log, i, term);
    OneTermScore(features, listed, index, log, j, term);
    ContainingBounds(features, listed, term);
    var a, b := features(listed[i].text), features(listed[j].text);
    DenserOneTerm(log, |listed|, Containing(features, listed, term), multiset(a)[term], |a|, multiset(b)[term], |b|, index.average);
  }

  method Bm25Score(log: Logarithm, index: Index, id: Text, terms: seq<Text>) returns (score: real)
    requires Averaged(index)
    ensures score == Bm25(log, index, id, terms)
  {
    if id !in index.documents || index.documents[id].length == 0 {
      return 0.0;
    }
    var document := index.documents[id];
    score := 0.0;
    for i := 0 to |terms|
      invariant score == TermScores(log, index, document, terms[..i])
    {
      assert terms[..i + 1][..i] == terms[..i];
      var frequency := Get(document.frequencies, terms[i]);
      if frequency != 0 {
        var matching := Get(index.documentFrequency, terms[i]);
        score := score + Idf(log, index.count, matching) * Weight(frequency, document.length, index.average);
      }
    }
    assert terms[..|terms|] == terms;
  }
}
