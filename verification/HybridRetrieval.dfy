/**
 Reciprocal rank fusion of a dense and a lexical ranking, and the packing of the
 fused ranking into a context budget.
 */
module HybridRetrieval {
  import opened Wrappers
  import opened RealFacts
  import opened Texts
  import opened Orders
  import opened Scores
  import opened HybridIndex
  import RankingMetrics

  // ---------------------------------------------------------------------- fusion

  const RRF_RANK_CONSTANT := 60

  function RankShare(position: nat): real {
    1.0 / (RRF_RANK_CONSTANT + position + 1) as real
  }

  /** What a ranking contributes to an id, over all its positions. */
  function Shares(ranking: seq<Text>, id: Text): real {
    if ranking == [] then 0.0
    else
      var last := |ranking| - 1;
      Shares(ranking[..last], id) + if ranking[last] == id then RankShare(last) else 0.0
  }

  /** An insertion-ordered map. */
  datatype Fused = Fused(scores: map<Text, real>, order: seq<Text>)

  ghost predicate FusedValid(fused: Fused) {
    && DistinctBy(Itself(), fused.order)
    && forall id :: id in fused.order <==> id in fused.scores
  }

  function Score(fused: Fused, id: Text): real {
    if id in fused.scores then fused.scores[id] else 0.0
  }

  lemma AppendDistinct(order: seq<Text>, id: Text)
    requires DistinctBy(Itself(), order) && id !in order
    ensures DistinctBy(Itself(), order + [id])
  {
    forall i, j | 0 <= i < j < |order + [id]| ensures Itself()((order + [id])[i]) != Itself()((order + [id])[j]) {
      if j < |order| {
        assert Itself()(order[i]) != Itself()(order[j]);
      } else {
        assert order[i] in order;
      }
    }
  }

  function Added(fused: Fused, id: Text, share: real): Fused {
    Fused(
      fused.scores[id := Score(fused, id) + share],
      if id in fused.scores then fused.order else fused.order + [id])
  }

  lemma AddedCounts(fused: Fused, id: Text, share: real)
    requires FusedValid(fused)
    ensures FusedValid(Added(fused, id, share))
    ensures forall k :: k in Added(fused, id, share).scores <==> k in fused.scores || k == id
    ensures forall k :: Score(Added(fused, id, share), k) == Score(fused, k) + if k == id then share else 0.0
    ensures fused.order <= Added(fused, id, share).order
  {
    if id !in fused.scores {
      AppendDistinct(fused.order, id);
    }
  }

  /** What `fused` must be once the first `n` entries have been added to `target`. */
  ghost predicate AddedUpTo(target: Fused, ranking: seq<Text>, n: nat, fused: Fused)
    requires n <= |ranking|
  {
    && FusedValid(fused)
    && (forall id :: id in fused.scores <==> id in target.scores || id in ranking[..n])
    && (forall id :: Score(fused, id) == Score(target, id) + Shares(ranking[..n], id))
    && target.order <= fused.order
  }

  lemma AddedOneMore(target: Fused, ranking: seq<Text>, n: nat, fused: Fused)
    requires n < |ranking| && AddedUpTo(target, ranking, n, fused)
    ensures AddedUpTo(target, ranking, n + 1, Added(fused, ranking[n], RankShare(n)))
  {
    AddedCounts(fused, ranking[n], RankShare(n));
    hide Added, FusedValid, Score, RankShare;
    assert ranking[..n + 1][..n] == ranking[..n] && ranking[..n + 1] == ranking[..n] + [ranking[n]];
  }

  /** Adds to every id what the ranking contributes to it. */
  method AddRrf(target: Fused, ranking: seq<Text>) returns (fused: Fused)
    requires FusedValid(target)
    ensures FusedValid(fused)
    ensures forall id :: id in fused.scores <==> id in target.scores || id in ranking
    ensures forall id :: Score(fused, id) == Score(target, id) + Shares(ranking, id)
    ensures target.order <= fused.order
  {
    fused := target;
    var i := 0;
    while i < |ranking|
      invariant 0 <= i <= |ranking|
      invariant AddedUpTo(target, ranking, i, fused)
    {
      hide AddedUpTo;
      AddedOneMore(target, ranking, i, fused);
      fused := Added(fused, ranking[i], RankShare(i));
      i := i + 1;
    }
    assert ranking[..i] == ranking;
  }

  lemma {:induction false} SharesAt(ranking: seq<Text>, id: Text)
    ensures Shares(ranking, id) >= 0.0
    ensures id !in ranking ==> Shares(ranking, id) == 0.0
    ensures forall i :: 0 <= i < |ranking| && ranking[i] == id && RankingMetrics.Unique(ranking) ==>
              Shares(ranking, id) == RankShare(i)
    ensures id in ranking ==> Shares(ranking, id) > 0.0
  {
    if ranking != [] {
      var last := |ranking| - 1;
      SharesAt(ranking[..last], id);
      assert ranking == ranking[..last] + [ranking[last]];
      QuotientPositive(1.0, (RRF_RANK_CONSTANT + last + 1) as real);
      if ranking[last] == id && RankingMetrics.Unique(ranking) {
        assert id !in ranking[..last];
      }
    }
  }

  lemma RankShareFalls(i: nat, j: nat)
    requires i < j
    ensures RankShare(i) > RankShare(j) > 0.0
  {
    var a, b := (RRF_RANK_CONSTANT + i + 1) as real, (RRF_RANK_CONSTANT + j + 1) as real;
    QuotientPositive(1.0, a);
    QuotientPositive(1.0, b);
    assert RankShare(i) * a == 1.0 && RankShare(j) * b == 1.0;
    ReciprocalFalls(RankShare(i), a, RankShare(j), b);
  }

  /** `a` comes before `b`, or `b` is not listed at all. */
  predicate Ahead(ranking: seq<Text>, a: Text, b: Text) {
    b in ranking ==> exists i, j :: 0 <= i < j < |ranking| && ranking[i] == a && ranking[j] == b
  }

  /** Fusion respects agreement: an id ahead of another in both rankings, and listed
      in one of them, ends up with the higher score. */
  lemma FusionRespectsAgreement(dense: seq<Text>, lexical: seq<Text>, a: Text, b: Text)
    requires RankingMetrics.Unique(dense) && RankingMetrics.Unique(lexical)
    requires Ahead(dense, a, b) && Ahead(lexical, a, b) && (a in dense || a in lexical)
    ensures Shares(dense, a) + Shares(lexical, a) > Shares(dense, b) + Shares(lexical, b)
  {
    SharesAhead(dense, a, b);
    SharesAhead(lexical, a, b);
  }

  lemma SharesAhead(ranking: seq<Text>, a: Text, b: Text)
    requires RankingMetrics.Unique(ranking) && Ahead(ranking, a, b)
    ensures Shares(ranking, a) >= Shares(ranking, b)
    ensures a in ranking ==> Shares(ranking, a) > Shares(ranking, b)
  {
    SharesAt(ranking, a);
    SharesAt(ranking, b);
    if b in ranking {
      var i, j :| 0 <= i < j < |ranking| && ranking[i] == a && ranking[j] == b;
      RankShareFalls(i, j);
    }
  }

  lemma ReciprocalsSum(n: real, x: real, y: real)
    requires n > 0.0 && x > 0.0 && y > 0.0
    ensures 1.0 / x + 1.0 / y > 1.0 / n <==> x * y < n * (x + y)
  {
    ProductPositive(x, y);
    QuotientsCompare(1.0, x, y, x * y);
    QuotientsCompare(1.0, y, x, x * y);
    assert 1.0 * (x * y) == y * x && 1.0 * (x * y) == x * y;
    QuotientAdds(y, x, x * y);
    QuotientsCompare(1.0, n, x + y, x * y);
    assert 1.0 * (x * y) == x * y && (x + y) * n == n * (x + y);
    assert y / (x * y) + x / (x * y) == (y + x) / (x * y);
  }

  /** What two places are worth together against the first place alone: they win if
      and only if the product of the positions is below the square of 61. */
  lemma TwoPlacesBeatFirstIff(p: nat, q: nat)
    ensures RankShare(p) + RankShare(q) > RankShare(0) <==> p * q < 61 * 61
  {
    var x, y := (61 + p) as real, (61 + q) as real;
    ReciprocalsSum(61.0, x, y);
    assert x * y == (61.0 + p as real) * (61.0 + q as real)
        == 61.0 * 61.0 + 61.0 * (p as real) + 61.0 * (q as real) + p as real * q as real;
    assert (p * q) as real == p as real * q as real;
  }

  /** So an id that both rankings list outscores the first of one that the other does
      not list exactly when its two positions are that good. */
  lemma AgreementBeatsFirstIff(dense: seq<Text>, lexical: seq<Text>, a: Text, b: Text, p: nat, q: nat)
    requires RankingMetrics.Unique(dense) && RankingMetrics.Unique(lexical)
    requires p < |dense| && dense[p] == a && q < |lexical| && lexical[q] == a
    requires dense[0] == b && b !in lexical
    ensures Shares(dense, a) + Shares(lexical, a) > Shares(dense, b) + Shares(lexical, b) <==> p * q < 61 * 61
  {
    SharesAt(dense, a);
    SharesAt(lexical, a);
    SharesAt(dense, b);
    SharesAt(lexical, b);
    hide RankShare, Shares;
    TwoPlacesBeatFirstIff(p, q);
  }

  // --------------------------------------------------------------------- packing

  datatype Retrieved = Retrieved(chunk: Chunk, score: real)

  function Size(ranked: seq<Retrieved>, picks: seq<nat>): nat
    requires forall k :: 0 <= k < |picks| ==> picks[k] < |ranked|
  {
    if picks == [] then 0
    else Size(ranked, picks[..|picks| - 1]) + |ranked[picks[|picks| - 1]].chunk.text|
  }

  lemma SizeEmpty(ranked: seq<Retrieved>)
    ensures Size(ranked, []) == 0
  {
  }

  lemma SizeAppend(ranked: seq<Retrieved>, picks: seq<nat>, i: nat)
    requires i < |ranked| && forall k :: 0 <= k < |picks| ==> picks[k] < |ranked|
    ensures Size(ranked, picks + [i]) == Size(ranked, picks) + |ranked[i].chunk.text|
  {
    assert (picks + [i])[..|picks|] == picks;
  }

  /** The positions taken from the first `n`: each one that still fits. */
  function Picks(ranked: seq<Retrieved>, n: nat, topK: int, budget: int): (picks: seq<nat>)
    requires n <= |ranked|
    ensures forall k :: 0 <= k < |picks| ==> picks[k] < n
  {
    if n == 0 then []
    else
      var before := Picks(ranked, n - 1, topK, budget);
      if |before| < topK && Size(ranked, before) + |ranked[n - 1].chunk.text| <= budget then before + [n - 1] else before
  }

  function At(ranked: seq<Retrieved>, picks: seq<nat>): (chunks: seq<Retrieved>)
    requires forall k :: 0 <= k < |picks| ==> picks[k] < |ranked|
    ensures |chunks| == |picks| && forall k :: 0 <= k < |picks| ==> chunks[k] == ranked[picks[k]]
  {
    seq(|picks|, k requires 0 <= k < |picks| => ranked[picks[k]])
  }

  /** Stops at `topK`, passes over what does not fit. */
  method Pack(ranked: seq<Retrieved>, topK: int, budget: int) returns (chunks: seq<Retrieved>, characters: nat)
    ensures chunks == At(ranked, Picks(ranked, |ranked|, topK, budget))
    ensures characters == Size(ranked, Picks(ranked, |ranked|, topK, budget))
  {
    hide Size;
    SizeEmpty(ranked);
    chunks, characters := [], 0;
    var i := 0;
    while i < |ranked|
      invariant 0 <= i <= |ranked|
      invariant chunks == At(ranked, Picks(ranked, i, topK, budget))
      invariant characters == Size(ranked, Picks(ranked, i, topK, budget))
    {
      if |chunks| >= topK {
        PicksFull(ranked, i, topK, budget);
        return;
      }
      if characters + |ranked[i].chunk.text| <= budget {
        SizeAppend(ranked, Picks(ranked, i, topK, budget), i);
        chunks := chunks + [ranked[i]];
        characters := characters + |ranked[i].chunk.text|;
      }
      i := i + 1;
    }
  }

  lemma {:induction false} PicksFull(ranked: seq<Retrieved>, n: nat, topK: int, budget: int)
    requires n <= |ranked| && |Picks(ranked, n, topK, budget)| >= topK
    ensures Picks(ranked, |ranked|, topK, budget) == Picks(ranked, n, topK, budget)
    decreases |ranked| - n
  {
    if n < |ranked| {
      PicksFull(ranked, n + 1, topK, budget);
    }
  }

  /** The picks ascend, and stay within the count and the budget. */
  lemma {:induction false} PicksWithin(ranked: seq<Retrieved>, n: nat, topK: int, budget: int)
    requires n <= |ranked|
    ensures var picks := Picks(ranked, n, topK, budget);
            && (forall i, j :: 0 <= i < j < |picks| ==> picks[i] < picks[j])
            && (picks != [] ==> |picks| <= topK && Size(ranked, picks) <= budget)
  {
    hide Size;
    if n > 0 {
      PicksWithin(ranked, n - 1, topK, budget);
      SizeAppend(ranked, Picks(ranked, n - 1, topK, budget), n - 1);
    }
  }

  lemma {:induction false} PicksGrow(ranked: seq<Retrieved>, m: nat, n: nat, topK: int, budget: int)
    requires m <= n <= |ranked|
    ensures Picks(ranked, m, topK, budget) <= Picks(ranked, n, topK, budget)
    ensures Size(ranked, Picks(ranked, m, topK, budget)) <= Size(ranked, Picks(ranked, n, topK, budget))
  {
    hide Size;
    if m < n {
      PicksGrow(ranked, m, n - 1, topK, budget);
      SizeAppend(ranked, Picks(ranked, n - 1, topK, budget), n - 1);
    }
  }

  lemma PickTaken(ranked: seq<Retrieved>, topK: int, budget: int, i: nat)
    requires i < |ranked|
    requires |Picks(ranked, i, topK, budget)| < topK
    requires Size(ranked, Picks(ranked, i, topK, budget)) + |ranked[i].chunk.text| <= budget
    ensures i in Picks(ranked, |ranked|, topK, budget)
  {
    var before := Picks(ranked, i, topK, budget);
    var after := Picks(ranked, i + 1, topK, budget);
    PicksGrow(ranked, i + 1, |ranked|, topK, budget);
    assert after[|before|] == i;
    assert Picks(ranked, |ranked|, topK, budget)[|before|] == i;
  }

  /** Packing is maximal: short of `topK` chunks, nothing passed over still fits. */
  lemma PackMaximal(ranked: seq<Retrieved>, topK: int, budget: int, i: nat)
    requires i < |ranked| && i !in Picks(ranked, |ranked|, topK, budget)
    requires |Picks(ranked, |ranked|, topK, budget)| < topK
    ensures Size(ranked, Picks(ranked, |ranked|, topK, budget)) + |ranked[i].chunk.text| > budget
  {
    PicksGrow(ranked, i, |ranked|, topK, budget);
    if Size(ranked, Picks(ranked, i, topK, budget)) + |ranked[i].chunk.text| <= budget {
      PickTaken(ranked, topK, budget, i);
    }
  }

  // ------------------------------------------------------------------- retrieval

  datatype Query = Query(
    text: Text,
    dense: seq<(Text, real)>,
    topK: int,
    prefetchK: int,
    budget: int)

  datatype RetrievalError = UnknownDense(id: Text) | LostChunk(id: Text)

  /** Higher score first, then the smaller text, then the smaller id. */
  function Precedes(): (Retrieved, Retrieved) -> bool {
    (a: Retrieved, b: Retrieved) =>
      a.score > b.score
      || (a.score == b.score
          && (Less(a.chunk.text, b.chunk.text) || (a.chunk.text == b.chunk.text && Less(a.chunk.id, b.chunk.id))))
  }

  lemma PrecedesStrict()
    ensures StrictOrder(Precedes())
  {
    var before := Precedes();
    forall x ensures !before(x, x) {
      LessIrreflexive(x.chunk.text);
      LessIrreflexive(x.chunk.id);
    }
    forall x, y, z | before(x, y) && before(y, z) ensures before(x, z) {
      if Less(x.chunk.text, y.chunk.text) && Less(y.chunk.text, z.chunk.text) {
        LessTransitive(x.chunk.text, y.chunk.text, z.chunk.text);
      }
      if Less(x.chunk.id, y.chunk.id) && Less(y.chunk.id, z.chunk.id) {
        LessTransitive(x.chunk.id, y.chunk.id, z.chunk.id);
      }
    }
  }

  /** As the array method: a negative end counts from the back. */
  function Prefix<T>(xs: seq<T>, end: int): seq<T> {
    if end < 0 then xs[..if |xs| + end < 0 then 0 else |xs| + end]
    else xs[..if end < |xs| then end else |xs|]
  }

  function IdsOf(ranking: seq<Retrieved>): (ids: seq<Text>)
    ensures |ids| == |ranking| && forall i :: 0 <= i < |ids| ==> ids[i] == ranking[i].chunk.id
  {
    seq(|ranking|, i requires 0 <= i < |ranking| => ranking[i].chunk.id)
  }

  /** The dense entries with their chunks. */
  function DenseOf(index: Index, dense: seq<(Text, real)>): (entries: seq<Retrieved>)
    requires forall i :: 0 <= i < |dense| ==> dense[i].0 in index.chunks
    ensures |entries| == |dense|
    ensures forall i :: 0 <= i < |dense| ==> entries[i] == Retrieved(index.chunks[dense[i].0], dense[i].1)
  {
    seq(|dense|, i requires 0 <= i < |dense| => Retrieved(index.chunks[dense[i].0], dense[i].1))
  }

  /** Looks every dense entry up. */
  method DenseEntries(index: Index, dense: seq<(Text, real)>) returns (result: Result<seq<Retrieved>, RetrievalError>)
    ensures result.Success? <==> forall i :: 0 <= i < |dense| ==> dense[i].0 in index.chunks
    ensures result.Success? ==> result.value == DenseOf(index, dense)
    ensures result.Failure? ==>
              exists i :: 0 <= i < |dense| && dense[i].0 !in index.chunks && result.error == UnknownDense(dense[i].0)
                          && forall j :: 0 <= j < i ==> dense[j].0 in index.chunks
  {
    var entries: seq<Retrieved> := [];
    for i := 0 to |dense|
      invariant |entries| == i
      invariant forall j :: 0 <= j < i ==> dense[j].0 in index.chunks
      invariant forall j :: 0 <= j < i ==> entries[j] == Retrieved(index.chunks[dense[j].0], dense[j].1)
    {
      if dense[i].0 !in index.chunks {
        return Failure(UnknownDense(dense[i].0));
      }
      entries := entries + [Retrieved(index.chunks[dense[i].0], dense[i].1)];
    }
    result := Success(entries);
  }

  /** The chunks with a positive score, in the order listed. */
  ghost function LexicalOf(log: Logarithm, index: Index, chunks: seq<Chunk>, terms: seq<Text>): seq<Retrieved>
    requires Averaged(index)
  {
    if chunks == [] then []
    else
      var last := chunks[|chunks| - 1];
      var score := Bm25(log, index, last.id, terms);
      LexicalOf(log, index, chunks[..|chunks| - 1], terms) + if score > 0.0 then [Retrieved(last, score)] else []
  }

  lemma {:induction false} LexicalMatches(log: Logarithm, index: Index, chunks: seq<Chunk>, terms: seq<Text>)
    requires Averaged(index)
    ensures forall e :: e in LexicalOf(log, index, chunks, terms) ==> Bm25(log, index, e.chunk.id, terms) > 0.0
  {
    if chunks != [] {
      LexicalMatches(log, index, chunks[..|chunks| - 1], terms);
    }
  }

  method LexicalEntries(log: Logarithm, index: Index, chunks: seq<Chunk>, terms: seq<Text>) returns (entries: seq<Retrieved>)
    requires Averaged(index)
    ensures entries == LexicalOf(log, index, chunks, terms)
  {
    entries := [];
    for i := 0 to |chunks|
      invariant entries == LexicalOf(log, index, chunks[..i], terms)
    {
      assert chunks[..i + 1][..i] == chunks[..i];
      var score := Bm25Score(log, index, chunks[i].id, terms);
      if score > 0.0 {
        entries := entries + [Retrieved(chunks[i], score)];
      }
    }
    assert chunks[..|chunks|] == chunks;
  }

  /** Looks every fused id up. */
  method FusedEntries(index: Index, fused: Fused) returns (result: Result<seq<Retrieved>, RetrievalError>)
    requires FusedValid(fused)
    requires forall id :: id in index.chunks ==> index.chunks[id].id == id
    ensures result.Success? <==> forall id :: id in fused.order ==> id in index.chunks
    ensures result.Success? ==>
              && |result.value| == |fused.order|
              && forall i :: 0 <= i < |fused.order| ==>
                   result.value[i] == Retrieved(index.chunks[fused.order[i]], Score(fused, fused.order[i]))
  {
    var entries: seq<Retrieved> := [];
    for i := 0 to |fused.order|
      invariant |entries| == i
      invariant forall j :: 0 <= j < i ==> fused.order[j] in index.chunks
      invariant forall j :: 0 <= j < i ==> entries[j] == Retrieved(index.chunks[fused.order[j]], Score(fused, fused.order[j]))
    {
      if fused.order[i] !in index.chunks {
        return Failure(LostChunk(fused.order[i]));
      }
      entries := entries + [Retrieved(index.chunks[fused.order[i]], Score(fused, fused.order[i]))];
    }
    result := Success(entries);
  }

  /** Ordered by falling score, no id twice, few and small enough. */
  ghost predicate Delivered(chunks: seq<Retrieved>, topK: int, budget: int) {
    && RankingMetrics.Unique(IdsOf(chunks))
    && (forall i, j :: 0 <= i < j < |chunks| ==> Precedes()(chunks[i], chunks[j]))
    && (chunks != [] ==> |chunks| <= topK && TextSize(chunks) <= budget)
  }

  function TextSize(chunks: seq<Retrieved>): nat {
    if chunks == [] then 0 else TextSize(chunks[..|chunks| - 1]) + |chunks[|chunks| - 1].chunk.text|
  }

  lemma {:induction false} TextSizeIs(ranked: seq<Retrieved>, picks: seq<nat>)
    requires forall k :: 0 <= k < |picks| ==> picks[k] < |ranked|
    ensures TextSize(At(ranked, picks)) == Size(ranked, picks)
  {
    if picks != [] {
      TextSizeIs(ranked, picks[..|picks| - 1]);
      assert At(ranked, picks)[..|picks| - 1] == At(ranked, picks[..|picks| - 1]);
    }
  }

  function ChunkId(): Retrieved -> Text {
    (r: Retrieved) => r.chunk.id
  }

  /** Packing a ranking without repeats delivers. */
  lemma PackDelivers(entries: seq<Retrieved>, topK: int, budget: int)
    requires DistinctBy(ChunkId(), entries)
    ensures var ranked := SortBy(entries, Precedes());
            && multiset(ranked) == multiset(entries)
            && Delivered(At(ranked, Picks(ranked, |ranked|, topK, budget)), topK, budget)
  {
    hide Precedes;
    var ranked := SortBy(entries, Precedes());
    PrecedesStrict();
    EntriesOrdered(entries);
    SortBySorts(entries, Precedes());
    hide SortBy;
    DistinctRearranged(ChunkId(), entries, ranked);
    var picks := Picks(ranked, |ranked|, topK, budget);
    PicksWithin(ranked, |ranked|, topK, budget);
    TextSizeIs(ranked, picks);
    hide Picks, Size;
    var chunks := At(ranked, picks);
    forall i, j | 0 <= i < j < |chunks| ensures Precedes()(chunks[i], chunks[j]) && IdsOf(chunks)[i] != IdsOf(chunks)[j] {
      assert ChunkId()(ranked[picks[i]]) != ChunkId()(ranked[picks[j]]);
    }
  }

  lemma EntriesOrdered(entries: seq<Retrieved>)
    requires DistinctBy(ChunkId(), entries)
    ensures TotalOn(Precedes(), entries)
  {
    forall i, j | 0 <= i < j < |entries|
      ensures Precedes()(entries[i], entries[j]) || Precedes()(entries[j], entries[i])
    {
      assert ChunkId()(entries[i]) != ChunkId()(entries[j]);
      LessTotal(entries[i].chunk.text, entries[j].chunk.text);
      LessTotal(entries[i].chunk.id, entries[j].chunk.id);
    }
  }

  /** Whether a feature of the query occurs in the chunk. */
  ghost predicate Related(features: Features, query: Text, chunk: Chunk) {
    exists t :: t in features(query) && t in features(chunk.text)
  }

  /** The indexed id comes from the dense ranking or shares a feature with the
      query. */
  ghost predicate Sourced(features: Features, index: Index, query: Query, id: Text) {
    && id in index.chunks
    && ((exists i :: 0 <= i < |query.dense| && query.dense[i].0 == id) || Related(features, query.text, index.chunks[id]))
  }

  lemma HeldAt(features: Features, indexed: seq<Chunk>, index: Index, i: nat)
    requires Indexes(features, indexed, index) && i < |indexed|
    ensures indexed[i].id in index.chunks && index.chunks[indexed[i].id] == indexed[i]
  {
  }

  lemma LexicalSourced(features: Features, indexed: seq<Chunk>, index: Index, log: Logarithm, query: Query,
                       terms: seq<Text>, id: Text)
    requires Indexes(features, indexed, index) && LogarithmValid(log)
    requires forall t :: t in terms <==> t in features(query.text)
    requires (IndexAveraged(features, indexed, index); Bm25(log, index, id, terms) > 0.0)
    ensures Sourced(features, index, query, id)
  {
    hide Indexes, Bm25, LogarithmValid, Averaged;
    IndexAveraged(features, indexed, index);
    Bm25PositiveIff(features, indexed, index, log, id, terms);
    var i, k :| 0 <= i < |indexed| && 0 <= k < |terms| && indexed[i].id == id && terms[k] in features(indexed[i].text);
    HeldAt(features, indexed, index, i);
    assert terms[k] in terms;
  }

  lemma PrefixMembers<T(!new)>(xs: seq<T>, end: int)
    ensures forall x :: x in Prefix(xs, end) ==> x in xs
  {
  }

  lemma IndexedIds(features: Features, indexed: seq<Chunk>, index: Index)
    requires Indexes(features, indexed, index)
    ensures forall id :: id in index.chunks ==> index.chunks[id].id == id
  {
  }

  lemma EntriesDistinct(index: Index, fused: Fused, entries: seq<Retrieved>)
    requires FusedValid(fused)
    requires forall id :: id in index.chunks ==> index.chunks[id].id == id
    requires forall id :: id in fused.order ==> id in index.chunks
    requires |entries| == |fused.order|
    requires forall i :: 0 <= i < |entries| ==> entries[i] == Retrieved(index.chunks[fused.order[i]], Score(fused, fused.order[i]))
    ensures DistinctBy(ChunkId(), entries)
  {
    forall i, j | 0 <= i < j < |entries| ensures ChunkId()(entries[i]) != ChunkId()(entries[j]) {
      assert Itself()(fused.order[i]) != Itself()(fused.order[j]);
    }
  }

  /** The ids of the best entries. */
  function Cut(entries: seq<Retrieved>, end: int): seq<Text> {
    IdsOf(Prefix(SortBy(entries, Precedes()), end))
  }

  lemma CutSource(entries: seq<Retrieved>, end: int, id: Text)
    requires id in Cut(entries, end)
    ensures exists e :: e in entries && e.chunk.id == id
  {
    var cut := Prefix(SortBy(entries, Precedes()), end);
    PrecedesStrict();
    SortBySorts(entries, Precedes());
    SameMembers(SortBy(entries, Precedes()), entries);
    PrefixMembers(SortBy(entries, Precedes()), end);
    var i :| 0 <= i < |cut| && IdsOf(cut)[i] == id;
    assert cut[i] in cut;
  }

  // -------------------------------------------------------- what a cut ranking holds

  /** `c` may stand before `e`: a higher score, or the same and no larger text, or the
      same of both and no larger id. */
  predicate MayPrecede(c: Retrieved, e: Retrieved) {
    && c.score >= e.score
    && (c.score == e.score ==> !Less(e.chunk.text, c.chunk.text))
    && (c.score == e.score && c.chunk.text == e.chunk.text ==> !Less(e.chunk.id, c.chunk.id))
  }

  /** How many of `n` entries a cut at `end` keeps; a negative end counts from the back. */
  function Kept(n: nat, end: int): nat {
    if end >= n then n else if end >= 0 then end else if n + end >= 0 then n + end else 0
  }

  /** The best entries, best first, counted with their repeats. */
  ghost predicate BestOf(entries: seq<Retrieved>, end: int, cut: seq<Retrieved>) {
    && |cut| == Kept(|entries|, end)
    && multiset(cut) <= multiset(entries)
    && (forall i, j :: 0 <= i < j < |cut| ==> MayPrecede(cut[i], cut[j]))
    && (forall c, e :: c in cut && e in multiset(entries) - multiset(cut) ==> MayPrecede(c, e))
  }

  /** `ids` are the ids of the best entries. */
  ghost predicate BestIds(entries: seq<Retrieved>, end: int, ids: seq<Text>) {
    exists cut :: BestOf(entries, end, cut) && ids == IdsOf(cut)
  }

  lemma PrecedesWeak()
    ensures WeakOrder(Precedes())
  {
    PrecedesStrict();
    var before := Precedes();
    forall x, y, z | !before(x, y) && !before(y, z) ensures !before(x, z) {
      LessTotal(x.chunk.text, y.chunk.text);
      LessTotal(y.chunk.text, z.chunk.text);
      LessTotal(x.chunk.id, y.chunk.id);
      LessTotal(y.chunk.id, z.chunk.id);
      NotBefore(x, y);
      NotBefore(y, z);
    }
  }

  /** Of two entries one precedes the other or they are the same. */
  lemma NotBefore(x: Retrieved, y: Retrieved)
    ensures Precedes()(x, y) || Precedes()(y, x) || x == y
    ensures MayPrecede(x, y) <==> !Precedes()(y, x)
  {
    LessTotal(x.chunk.text, y.chunk.text);
    LessTotal(x.chunk.id, y.chunk.id);
    LessIrreflexive(x.chunk.text);
  }

  lemma MayPrecedeAll()
    ensures forall c, e :: MayPrecede(c, e) <==> !Precedes()(e, c)
  {
    forall c, e ensures MayPrecede(c, e) <==> !Precedes()(e, c) {
      NotBefore(c, e);
    }
  }

  lemma PrefixCuts(sorted: seq<Retrieved>, end: int)
    requires RankedBy(Precedes(), sorted)
    ensures BestOf(sorted, end, Prefix(sorted, end))
  {
    MayPrecedeAll();
    hide Precedes, MayPrecede;
    var cut := Prefix(sorted, end);
    var rest := sorted[|cut|..];
    assert sorted == cut + rest;
    RankedSplit(cut, rest, Precedes());
  }

  /** A cut holds the ids of the best entries, best first. */
  lemma CutIsBest(entries: seq<Retrieved>, end: int)
    ensures BestIds(entries, end, Cut(entries, end))
  {
    PrecedesWeak();
    SortByRanks(entries, Precedes());
    SortBySorts(entries, Precedes());
    hide Precedes, MayPrecede, WeakOrder, StrictOrder, SortBy, Prefix;
    var sorted := SortBy(entries, Precedes());
    PrefixCuts(sorted, end);
    SameMembers(sorted, entries);
    hide RankedBy;
    assert BestOf(entries, end, Prefix(sorted, end));
  }

  lemma NextFits(entries: seq<Retrieved>, end: int, x: seq<Retrieved>, y: seq<Retrieved>, i: nat)
    requires BestOf(entries, end, x) && BestOf(entries, end, y) && i < |x| && x[..i] == y[..i]
    ensures MayPrecede(x[i], y[i])
  {
    NotBefore(x[i], x[i]);
    PrecedesStrict();
    hide Precedes, MayPrecede;
    NextIsLeft(multiset(entries), x, y, i);
    if y[i] in x[i..] {
      var j :| 0 <= j < |x[i..]| && x[i..][j] == y[i];
      assert x[i + j] == y[i];
    } else {
      assert x[i] in x;
    }
  }

  lemma {:induction false} BestOfUnique(entries: seq<Retrieved>, end: int, x: seq<Retrieved>, y: seq<Retrieved>, i: nat)
    requires BestOf(entries, end, x) && BestOf(entries, end, y) && i <= |x| && x[..i] == y[..i]
    ensures x == y
    decreases |x| - i
  {
    if i < |x| {
      NextFits(entries, end, x, y, i);
      NextFits(entries, end, y, x, i);
      NotBefore(x[i], y[i]);
      NotBefore(y[i], x[i]);
      assert x[..i + 1] == x[..i] + [x[i]] && y[..i + 1] == y[..i] + [y[i]];
      hide MayPrecede;
      BestOfUnique(entries, end, x, y, i + 1);
    } else {
      assert x[..i] == x && y[..i] == y;
    }
  }

  /** And there is only one such list of ids. */
  lemma BestIdsUnique(entries: seq<Retrieved>, end: int, a: seq<Text>, b: seq<Text>)
    requires BestIds(entries, end, a) && BestIds(entries, end, b)
    ensures a == b
  {
    var x :| BestOf(entries, end, x) && a == IdsOf(x);
    var y :| BestOf(entries, end, y) && b == IdsOf(y);
    assert x[..0] == y[..0];
    BestOfUnique(entries, end, x, y, 0);
  }

  /** What the two cut rankings say about an id together. */
  function FusedShare(dense: seq<Text>, lexical: seq<Text>, id: Text): real {
    Shares(dense, id) + Shares(lexical, id)
  }

  /** Orders both rankings, cuts them and adds up their shares. */
  method Fuse(dense: seq<Retrieved>, lexical: seq<Retrieved>, prefetchK: int) returns (fused: Fused)
    ensures FusedValid(fused)
    ensures forall id :: id in fused.order <==> id in Cut(dense, prefetchK) || id in Cut(lexical, prefetchK)
    ensures forall id :: Score(fused, id) == FusedShare(Cut(dense, prefetchK), Cut(lexical, prefetchK), id)
    ensures BestIds(dense, prefetchK, Cut(dense, prefetchK)) && BestIds(lexical, prefetchK, Cut(lexical, prefetchK))
  {
    hide Shares, Cut, BestIds;
    CutIsBest(dense, prefetchK);
    CutIsBest(lexical, prefetchK);
    fused := AddRrf(Fused(map[], []), Cut(dense, prefetchK));
    fused := AddRrf(fused, Cut(lexical, prefetchK));
  }

  /** The indexed chunks of both rankings, each once, under its fused share and in
      order. */
  ghost predicate FusedRanking(index: Index, dense: seq<Text>, lexical: seq<Text>, ranked: seq<Retrieved>) {
    && SortedBy(Precedes(), ranked)
    && (forall id :: id in IdsOf(ranked) <==> id in dense || id in lexical)
    && forall e :: e in ranked ==>
         && e.chunk.id in index.chunks
         && e.chunk == index.chunks[e.chunk.id]
         && e.score == FusedShare(dense, lexical, e.chunk.id)
  }

  lemma FusedMember(index: Index, dense: seq<Text>, lexical: seq<Text>, a: seq<Retrieved>, b: seq<Retrieved>, e: Retrieved)
    requires FusedRanking(index, dense, lexical, a) && FusedRanking(index, dense, lexical, b) && e in a
    ensures e in b
  {
    hide FusedShare, SortedBy, Precedes;
    RankedId(a, e);
    assert e.chunk.id in IdsOf(b);
    var i :| 0 <= i < |b| && IdsOf(b)[i] == e.chunk.id;
    assert b[i] in b && b[i] == e;
  }

  /** There is only one such sequence. */
  lemma FusedRankingUnique(index: Index, dense: seq<Text>, lexical: seq<Text>, a: seq<Retrieved>, b: seq<Retrieved>)
    requires FusedRanking(index, dense, lexical, a) && FusedRanking(index, dense, lexical, b)
    ensures a == b
  {
    PrecedesStrict();
    forall e ensures e in a <==> e in b {
      if e in a {
        FusedMember(index, dense, lexical, a, b, e);
      }
      if e in b {
        FusedMember(index, dense, lexical, b, a, e);
      }
    }
    hide Precedes, StrictOrder, SortedBy, FusedShare;
    SortedMembersUnique(a, b, Precedes());
  }

  lemma RankedFused(index: Index, fused: Fused, entries: seq<Retrieved>, dense: seq<Text>, lexical: seq<Text>)
    requires FusedValid(fused)
    requires forall id :: id in index.chunks ==> index.chunks[id].id == id
    requires forall id :: id in fused.order ==> id in index.chunks
    requires |entries| == |fused.order|
    requires forall i :: 0 <= i < |entries| ==> entries[i] == Retrieved(index.chunks[fused.order[i]], Score(fused, fused.order[i]))
    requires forall id :: id in fused.order <==> id in dense || id in lexical
    requires forall id :: Score(fused, id) == FusedShare(dense, lexical, id)
    ensures FusedRanking(index, dense, lexical, SortBy(entries, Precedes()))
  {
    hide *;
    var ranked := SortBy(entries, Precedes());
    EntriesDistinct(index, fused, entries);
    RankedOrder(entries);
    SameIds(ranked, entries);
    assert IdsOf(entries) == fused.order;
    RankedEntries(index, fused, entries, ranked);
    RankingFused(index, fused, ranked, dense, lexical);
  }

  lemma RankingFused(index: Index, fused: Fused, ranked: seq<Retrieved>, dense: seq<Text>, lexical: seq<Text>)
    requires SortedBy(Precedes(), ranked)
    requires forall id :: id in IdsOf(ranked) <==> id in fused.order
    requires forall id :: id in fused.order <==> id in dense || id in lexical
    requires forall id :: Score(fused, id) == FusedShare(dense, lexical, id)
    requires forall e :: e in ranked ==>
               e.chunk.id in index.chunks && e.chunk == index.chunks[e.chunk.id] && e.score == Score(fused, e.chunk.id)
    ensures FusedRanking(index, dense, lexical, ranked)
  {
    hide SortedBy, Precedes, Score, FusedShare;
  }

  lemma RankedOrder(entries: seq<Retrieved>)
    requires DistinctBy(ChunkId(), entries)
    ensures SortedBy(Precedes(), SortBy(entries, Precedes()))
    ensures forall e :: e in SortBy(entries, Precedes()) <==> e in entries
  {
    hide Precedes;
    PrecedesStrict();
    EntriesOrdered(entries);
    SortBySorts(entries, Precedes());
    hide SortBy, DistinctBy, TotalOn, StrictOrder, SortedBy;
    SameMembers(SortBy(entries, Precedes()), entries);
  }

  lemma RankedEntries(index: Index, fused: Fused, entries: seq<Retrieved>, ranked: seq<Retrieved>)
    requires forall id :: id in index.chunks ==> index.chunks[id].id == id
    requires forall id :: id in fused.order ==> id in index.chunks
    requires |entries| == |fused.order|
    requires forall i :: 0 <= i < |entries| ==> entries[i] == Retrieved(index.chunks[fused.order[i]], Score(fused, fused.order[i]))
    requires forall e :: e in ranked <==> e in entries
    ensures forall e :: e in ranked ==>
              e.chunk.id in index.chunks && e.chunk == index.chunks[e.chunk.id] && e.score == Score(fused, e.chunk.id)
  {
    hide Score;
    forall e | e in ranked
      ensures e.chunk.id in index.chunks && e.chunk == index.chunks[e.chunk.id] && e.score == Score(fused, e.chunk.id)
    {
      var i :| 0 <= i < |entries| && entries[i] == e;
      assert fused.order[i] in fused.order;
    }
  }

  lemma SameIds(xs: seq<Retrieved>, ys: seq<Retrieved>)
    requires forall e :: e in xs <==> e in ys
    ensures forall id :: id in IdsOf(xs) <==> id in IdsOf(ys)
  {
    forall id ensures id in IdsOf(xs) <==> id in IdsOf(ys) {
      if id in IdsOf(xs) {
        IdMember(xs, ys, id);
      }
      if id in IdsOf(ys) {
        IdMember(ys, xs, id);
      }
    }
  }

  lemma IdMember(xs: seq<Retrieved>, ys: seq<Retrieved>, id: Text)
    requires (forall e :: e in xs <==> e in ys) && id in IdsOf(xs)
    ensures id in IdsOf(ys)
  {
    var i :| 0 <= i < |xs| && IdsOf(xs)[i] == id;
    assert xs[i] in ys;
    var k :| 0 <= k < |ys| && ys[k] == xs[i];
    assert IdsOf(ys)[k] == id;
  }

  /** No fused id can be lost: each is indexed, whichever ranking it came from. */
  lemma FusedSourced(features: Features, indexed: seq<Chunk>, index: Index, log: Logarithm, chunks: seq<Chunk>,
                     query: Query, terms: seq<Text>, id: Text)
    requires Indexes(features, indexed, index) && LogarithmValid(log)
    requires forall i :: 0 <= i < |query.dense| ==> query.dense[i].0 in index.chunks
    requires forall t :: t in terms <==> t in features(query.text)
    requires (IndexAveraged(features, indexed, index); Averaged(index))
    requires || id in Cut(DenseOf(index, query.dense), query.prefetchK)
             || id in Cut(LexicalOf(log, index, chunks, terms), query.prefetchK)
    ensures Sourced(features, index, query, id)
  {
    hide Indexes, Bm25, LogarithmValid, Averaged, Cut, LexicalOf, Sourced;
    IndexAveraged(features, indexed, index);
    var dense, lexical := DenseOf(index, query.dense), LexicalOf(log, index, chunks, terms);
    if id in Cut(dense, query.prefetchK) {
      CutSource(dense, query.prefetchK, id);
      var e :| e in dense && e.chunk.id == id;
      DenseSourced(features, indexed, index, query, e);
    } else {
      CutSource(lexical, query.prefetchK, id);
      LexicalMatches(log, index, chunks, terms);
      LexicalSourced(features, indexed, index, log, query, terms, id);
    }
  }

  lemma DenseSourced(features: Features, indexed: seq<Chunk>, index: Index, query: Query, e: Retrieved)
    requires Indexes(features, indexed, index)
    requires forall i :: 0 <= i < |query.dense| ==> query.dense[i].0 in index.chunks
    requires e in DenseOf(index, query.dense)
    ensures Sourced(features, index, query, e.chunk.id)
  {
    IndexedIds(features, indexed, index);
    hide Indexes;
    var i :| 0 <= i < |query.dense| && DenseOf(index, query.dense)[i] == e;
    assert query.dense[i].0 == e.chunk.id;
  }

  /** What the program returns: the packed chunks and how many entries each stage
      held. */
  datatype Retrieval = Retrieval(
    chunks: seq<Retrieved>,
    candidateCount: nat,
    densePrefetchCount: nat,
    lexicalPrefetchCount: nat,
    fusedCandidateCount: nat)

  /**
   Fails only for a dense entry that is not indexed.  Otherwise delivers what packing
   takes from the fused ranking of the best dense and the best lexical entries:
   ordered, free of repeats, within the limits, and related to the query one way or
   the other.
   */
  method RetrieveHybrid(features: Features, log: Logarithm, index: Index, ghost indexed: seq<Chunk>,
                        chunks: seq<Chunk>, query: Query)
    returns (result: Result<Retrieval, RetrievalError>, ghost ranked: seq<Retrieved>, ghost best: seq<Text>, ghost matching: seq<Text>)
    requires Indexes(features, indexed, index) && LogarithmValid(log)
    ensures result.Success? <==> forall i :: 0 <= i < |query.dense| ==> query.dense[i].0 in index.chunks
    ensures result.Failure? ==> result.error.UnknownDense?
    ensures result.Success? ==>
              && BestIds(DenseOf(index, query.dense), query.prefetchK, best)
              && FusedRanking(index, best, matching, ranked)
    ensures result.Success? ==>
              (IndexAveraged(features, indexed, index);
               BestIds(LexicalOf(log, index, chunks, Distinct(features(query.text))), query.prefetchK, matching))
    ensures result.Success? ==>
              result.value.chunks == At(ranked, Picks(ranked, |ranked|, query.topK, query.budget))
    ensures result.Success? ==>
              && result.value.candidateCount == |chunks|
              && result.value.densePrefetchCount == |best|
              && result.value.lexicalPrefetchCount == |matching|
              && result.value.fusedCandidateCount == |ranked|
    ensures result.Success? ==> Delivered(result.value.chunks, query.topK, query.budget)
    ensures result.Success? ==> forall e :: e in result.value.chunks ==> Sourced(features, index, query, e.chunk.id)
  {
    hide Indexes, Delivered, FusedValid, Bm25, LogarithmValid, Cut, LexicalOf, Sourced, SortBy, FusedShare, Score, Distinct;
    hide Picks, Size, Precedes, BestIds;
    ranked, best, matching := [], [], [];
    IndexAveraged(features, indexed, index);
    IndexedIds(features, indexed, index);
    var dense := DenseEntries(index, query.dense);
    if dense.Failure? {
      return Failure(dense.error), ranked, best, matching;
    }
    var terms := Distinct(features(query.text));
    DistinctKeepsMembers(features(query.text));
    var lexical := LexicalEntries(log, index, chunks, terms);
    var fused := Fuse(dense.value, lexical, query.prefetchK);
    best, matching := Cut(dense.value, query.prefetchK), Cut(lexical, query.prefetchK);
    forall id | id in fused.order ensures Sourced(features, index, query, id) && id in index.chunks {
      FusedSourced(features, indexed, index, log, chunks, query, terms, id);
      SourcedIndexed(features, index, query, id);
    }
    var entries := FusedEntries(index, fused);
    assert entries.Success?;
    EntriesDistinct(index, fused, entries.value);
    PackDelivers(entries.value, query.topK, query.budget);
    RankedFused(index, fused, entries.value, best, matching);
    var ordered := SortBy(entries.value, Precedes());
    ranked := ordered;
    SameMembers(ordered, entries.value);
    var packed, characters := Pack(ordered, query.topK, query.budget);
    forall e | e in packed ensures Sourced(features, index, query, e.chunk.id) {
      RankedId(ordered, e);
    }
    result := Success(Retrieval(packed, |chunks|, |Cut(dense.value, query.prefetchK)|, |Cut(lexical, query.prefetchK)|, |fused.order|));
  }

  lemma SourcedIndexed(features: Features, index: Index, query: Query, id: Text)
    requires Sourced(features, index, query, id)
    ensures id in index.chunks
  {
  }

  lemma RankedId(ranked: seq<Retrieved>, e: Retrieved)
    requires e in ranked
    ensures e.chunk.id in IdsOf(ranked)
  {
    var i :| 0 <= i < |ranked| && ranked[i] == e;
    assert IdsOf(ranked)[i] == e.chunk.id;
  }

  /** A delivery is a result whose nDCG is a number from 0 to 1, at any cutoff that
      allows for all of it. */
  lemma DeliveredScoresWithinUnit(discount: RankingMetrics.Discount, chunks: seq<Retrieved>, topK: int, budget: int,
                                  relevant: set<Text>, cutoff: int)
    requires RankingMetrics.Discounts(discount) && Delivered(chunks, topK, budget) && 0 <= cutoff && topK <= cutoff
    ensures 0.0 <= RankingMetrics.Ndcg(discount, IdsOf(chunks), relevant, cutoff) <= 1.0
  {
    hide RankingMetrics.Ndcg;
    RankingMetrics.ShortDistinctFits(IdsOf(chunks), relevant, cutoff);
    RankingMetrics.NdcgWithinUnit(discount, IdsOf(chunks), relevant, cutoff);
  }
}
