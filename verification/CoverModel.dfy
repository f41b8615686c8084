/**
 The deferred evidence cover: which probed cards are admitted, deferred or
 rejected for a query.

 Scores are exact reals.  Word segmentation, the n-gram similarity of two words
 and the logarithm are parameters (`Lexicon`).
 */
module CoverModel {
  import opened Wrappers
  import opened RealFacts
  import opened Texts
  import opened Orders
  import opened Scores

  // ---------------------------------------------------------------------- data

  datatype Lexicon = Lexicon(words: Text -> seq<Text>, similarity: (Text, Text) -> real, log: real -> real)

  ghost predicate LexiconValid(x: Lexicon) {
    && (forall a, b :: 0.0 <= x.similarity(a, b) <= 1.0)
    && (forall v :: v > 1.0 ==> x.log(v) > 0.0)
  }

  datatype Signal = Signal(bm25: bool, contribution: real)
  datatype Card = Card(cardId: Text, versionId: Text, description: Text)

  datatype CardSignals = CardSignals(card: Card, lexical: real, semantic: real, hybrid: real, lexicalSignals: seq<Signal>)
  datatype Candidate = Candidate(
    input: CardSignals,
    lexicalRankSupport: real,
    semanticRankSupport: real,
    routingSupport: real,
    cardSupport: real)

  datatype Chunk = Chunk(id: Text, text: Text, rank: int, similarity: real, sentenceSimilarity: real)
  datatype Scope = Scope(scopeId: Text, scopeVersion: Text, chunks: seq<Chunk>)
  datatype Probed = Probed(candidate: Candidate, scopes: seq<Scope>)

  datatype Evidence = Evidence(
    card: Card,
    cardSupport: real,
    cardSemanticSimilarity: real,
    cardLexicalSupport: real,
    cardLexicalSignals: seq<Signal>,
    routingSupport: real,
    sentenceSimilarity: real,
    wholeQuerySupport: real,
    tokenSupports: seq<real>,
    evidenceChunk: Option<Text>,
    scopeCount: nat,
    chunkCount: nat)

  datatype Disposition = Admit | Defer | Reject

  datatype Audit = Audit(
    queryTokens: seq<Text>,
    tokenWeights: seq<real>,
    candidateVersionIds: seq<Text>,
    selectedVersionIds: seq<Text>,
    routedVersionIds: seq<Text>,
    disposition: Disposition,
    targetCoverage: seq<real>,
    attemptedVersionIds: seq<Text>,
    attemptedCoverage: seq<real>,
    selectedCoverage: seq<real>,
    coverageDeficit: real,
    evidence: seq<Evidence>,
    executable: bool)

  datatype Plan = Plan(
    executable: bool,
    selectedCards: seq<Card>,
    routedCards: seq<Card>,
    disposition: Disposition,
    audit: Audit)

  datatype CoverError = NoWords | OutOfBounds | DuplicateVersion

  const MINIMUM_ROUTING_SUPPORT := 0.82
  const MINIMUM_SUPPLEMENT_SUPPORT := 0.86
  const MINIMUM_EXECUTION_SUPPORT := 0.89
  const COVERAGE_TOLERANCE := 0.025
  const MINIMUM_MARGINAL_COVERAGE := 0.01
  const MAXIMUM_SELECTED_CARDS: nat := 4
  const MAXIMUM_CANDIDATE_CARDS: nat := 16
  const MAXIMUM_CANDIDATE_SCOPES: nat := 16
  const PROBE_CHUNKS_PER_SCOPE: nat := 3
  const MAXIMUM_PROBE_CHUNKS: nat := 48

  // -------------------------------------------------------------------- chunks

  function ChunksOf(scopes: seq<Scope>): seq<Chunk> {
    if scopes == [] then [] else ChunksOf(scopes[..|scopes| - 1]) + scopes[|scopes| - 1].chunks
  }

  function AllChunks(cards: seq<Probed>): seq<Chunk> {
    if cards == [] then [] else AllChunks(cards[..|cards| - 1]) + ChunksOf(cards[|cards| - 1].scopes)
  }

  /** The text recorded for each chunk revision; a later observation replaces an
      earlier one. */
  function TextsOf(chunks: seq<Chunk>): map<Text, Text> {
    if chunks == [] then map[]
    else TextsOf(chunks[..|chunks| - 1])[chunks[|chunks| - 1].id := chunks[|chunks| - 1].text]
  }

  function ChunkIds(chunks: seq<Chunk>): set<Text> {
    set c | c in chunks :: c.id
  }

  function ScopeKey(s: Scope): Text {
    s.scopeId + [0] + s.scopeVersion
  }

  function ScopeKeys(cards: seq<Probed>): set<Text> {
    set c, s | c in cards && s in c.scopes :: ScopeKey(s)
  }

  /** Observations of one chunk revision agree. */
  predicate Agree(c: Chunk, d: Chunk) {
    c.id == d.id ==> c.text == d.text && c.similarity == d.similarity && c.sentenceSimilarity == d.sentenceSimilarity
  }

  predicate Consistent(chunks: seq<Chunk>) {
    forall c, d :: c in chunks && d in chunks ==> Agree(c, d)
  }

  /** What the bounds check demands of the probed cards. */
  predicate WithinBounds(cards: seq<Probed>) {
    && |cards| <= MAXIMUM_CANDIDATE_CARDS
    && (forall c, s :: c in cards && s in c.scopes ==> |s.chunks| <= PROBE_CHUNKS_PER_SCOPE)
    && (forall k :: k in AllChunks(cards) ==> k.rank >= 1)
    && Consistent(AllChunks(cards))
    && |ScopeKeys(cards)| <= MAXIMUM_CANDIDATE_SCOPES
    && |ChunkIds(AllChunks(cards))| <= MAXIMUM_PROBE_CHUNKS
  }

  // --------------------------------------------------------------- word support

  function SimilarTo(x: Lexicon, query: Text): Text -> real {
    (w: Text) => x.similarity(query, w)
  }

  function WordSupport(x: Lexicon, query: Text, candidates: seq<Text>): real {
    Min(1.0, 0.75 * (if query in candidates then 1.0 else 0.0) + 0.25 * MaxOf(candidates, SimilarTo(x, query)))
  }

  function MatchingChunks(x: Lexicon, token: Text, texts: map<Text, Text>): set<Text> {
    set id | id in texts && WordSupport(x, token, x.words(texts[id])) >= 0.75
  }

  function RawWeight(x: Lexicon, token: Text, texts: map<Text, Text>): real {
    var matching := |MatchingChunks(x, token, texts)| as real;
    x.log(1.0 + (|texts| as real - matching + 0.5) / (matching + 0.5))
  }

  lemma RawWeightPositive(x: Lexicon, token: Text, texts: map<Text, Text>)
    requires LexiconValid(x)
    ensures RawWeight(x, token, texts) > 0.0
  {
    var matching := MatchingChunks(x, token, texts);
    assert matching <= texts.Keys;
    SubsetSize(matching, texts.Keys);
    QuotientPositive(|texts| as real - |matching| as real + 0.5, |matching| as real + 0.5);
  }

  lemma {:induction false} SubsetSize<T>(a: set<T>, b: set<T>)
    requires a <= b
    ensures |a| <= |b|
  {
    if a != {} {
      var e :| e in a;
      SubsetSize(a - {e}, b - {e});
    }
  }

  function RawWeights(x: Lexicon, tokens: seq<Text>, texts: map<Text, Text>): (raw: seq<real>)
    ensures |raw| == |tokens| && forall i :: 0 <= i < |tokens| ==> raw[i] == RawWeight(x, tokens[i], texts)
  {
    seq(|tokens|, i requires 0 <= i < |tokens| => RawWeight(x, tokens[i], texts))
  }

  function Sum(xs: seq<real>): real {
    if xs == [] then 0.0 else Sum(xs[..|xs| - 1]) + xs[|xs| - 1]
  }

  lemma {:induction false} SumPositive(xs: seq<real>)
    requires forall i :: 0 <= i < |xs| ==> xs[i] > 0.0
    ensures xs != [] ==> Sum(xs) > 0.0
  {
    if xs != [] {
      SumPositive(xs[..|xs| - 1]);
    }
  }

  /** Inverse document frequencies, scaled to add up to one. */
  function TokenWeights(x: Lexicon, tokens: seq<Text>, texts: map<Text, Text>): (weights: seq<real>)
    requires LexiconValid(x)
    ensures |weights| == |tokens|
  {
    if tokens == [] then []
    else
      var raw := RawWeights(x, tokens, texts);
      RawTotalPositive(x, tokens, texts);
      var total := Sum(raw);
      seq(|raw|, i requires 0 <= i < |raw| => raw[i] / total)
  }

  lemma RawTotalPositive(x: Lexicon, tokens: seq<Text>, texts: map<Text, Text>)
    requires LexiconValid(x) && tokens != []
    ensures Sum(RawWeights(x, tokens, texts)) > 0.0
    ensures forall i :: 0 <= i < |tokens| ==> RawWeights(x, tokens, texts)[i] > 0.0
  {
    forall i | 0 <= i < |tokens| ensures RawWeights(x, tokens, texts)[i] > 0.0 {
      RawWeightPositive(x, tokens[i], texts);
    }
    SumPositive(RawWeights(x, tokens, texts));
  }

  // ------------------------------------------------------------------ evidence

  function BestChunk(chunks: seq<Chunk>): Option<Chunk> {
    Best(chunks, ByScore(SentenceSimilarity(), ChunkId()))
  }

  function SentenceSimilarity(): Chunk -> real {
    (c: Chunk) => c.sentenceSimilarity
  }

  function ChunkId(): Chunk -> Text {
    (c: Chunk) => c.id
  }

  function ChunkSupport(x: Lexicon, token: Text, texts: map<Text, Text>): Chunk -> real {
    (c: Chunk) => WordSupport(x, token, if c.id in texts then x.words(texts[c.id]) else [])
  }

  function TokenSupports(x: Lexicon, tokens: seq<Text>, texts: map<Text, Text>, chunks: seq<Chunk>): (s: seq<real>)
    ensures |s| == |tokens|
    ensures forall i :: 0 <= i < |s| ==> s[i] == MaxOf(chunks, ChunkSupport(x, tokens[i], texts))
  {
    seq(|tokens|, i requires 0 <= i < |tokens| => MaxOf(chunks, ChunkSupport(x, tokens[i], texts)))
  }

  function Bm25Contribution(): Signal -> real {
    (s: Signal) => if s.bm25 then s.contribution else 0.0
  }

  function CombinedWholeSupport(sentence: real, card: real): real {
    Max(0.0, Min(1.0, 0.8 * sentence + 0.2 * card))
  }

  function EvidenceOf(x: Lexicon, tokens: seq<Text>, texts: map<Text, Text>, entry: Probed): Evidence {
    var chunks := ChunksOf(entry.scopes);
    var best := BestChunk(chunks);
    var sentence := if best.Some? then best.value.sentenceSimilarity else -1.0;
    var input := entry.candidate.input;
    Evidence(input.card, entry.candidate.cardSupport, input.semantic, input.lexical, input.lexicalSignals,
             MaxOf(input.lexicalSignals, Bm25Contribution()),
             sentence, CombinedWholeSupport(sentence, entry.candidate.cardSupport),
             TokenSupports(x, tokens, texts, chunks),
             if best.Some? then Some(best.value.id) else None,
             |entry.scopes|, |ChunkIds(chunks)|)
  }

  function EvidenceIn(x: Lexicon, tokens: seq<Text>, texts: map<Text, Text>): Probed -> Evidence {
    (entry: Probed) => EvidenceOf(x, tokens, texts, entry)
  }

  function Version(): Evidence -> Text {
    (e: Evidence) => e.card.versionId
  }

  function CardOf(): Evidence -> Card {
    (e: Evidence) => e.card
  }

  function Support(): Evidence -> real {
    (e: Evidence) => e.wholeQuerySupport
  }

  function Routing(): Evidence -> real {
    (e: Evidence) => e.routingSupport
  }

  function Cost(e: Evidence): nat {
    e.scopeCount + e.chunkCount
  }

  // ------------------------------------------------------------------ coverage

  function At(i: nat): Evidence -> real {
    (e: Evidence) => if i < |e.tokenSupports| then e.tokenSupports[i] else 0.0
  }

  function Aggregate(evidence: seq<Evidence>, width: nat): (coverage: seq<real>)
    ensures |coverage| == width && forall i :: 0 <= i < width ==> coverage[i] == MaxOf(evidence, At(i))
  {
    seq(width, i requires 0 <= i < width => MaxOf(evidence, At(i)))
  }

  function Item(values: seq<real>, i: nat): real {
    if i < |values| then values[i] else 0.0
  }

  function Merge(left: seq<real>, right: seq<real>): (merged: seq<real>)
    ensures |merged| == |left| && forall i :: 0 <= i < |left| ==> merged[i] == Max(left[i], Item(right, i))
  {
    seq(|left|, i requires 0 <= i < |left| => Max(left[i], Item(right, i)))
  }

  function Weighted(values: seq<real>, weights: seq<real>): real {
    if values == [] then 0.0
    else
      var n := |values| - 1;
      Weighted(values[..n], weights) + values[n] * Item(weights, n)
  }

  function Deficit(actual: seq<real>, target: seq<real>, weights: seq<real>): real {
    if target == [] then 0.0
    else
      var n := |target| - 1;
      Deficit(actual, target[..n], weights) + Max(0.0, target[n] - Item(actual, n)) * Item(weights, n)
  }

  predicate Preserves(actual: seq<real>, target: seq<real>, weights: seq<real>) {
    Deficit(actual, target, weights) <= COVERAGE_TOLERANCE
  }

  // ----------------------------------------------------------------- selection

  function AtLeast(limit: real): Evidence -> bool {
    (e: Evidence) => e.wholeQuerySupport >= limit
  }

  /** Another entry rests on the same chunk at a strictly lower cost. */
  predicate Dominates(other: Evidence, entry: Evidence) {
    && other.card.versionId != entry.card.versionId
    && other.evidenceChunk.Some?
    && other.evidenceChunk == entry.evidenceChunk
    && Cost(other) < Cost(entry)
  }

  function Undominated(supplements: seq<Evidence>): Evidence -> bool {
    (e: Evidence) => !(exists other :: other in supplements && Dominates(other, e))
  }

  function Routed(evidence: seq<Evidence>): seq<Evidence> {
    Filter(evidence, AtLeast(MINIMUM_ROUTING_SUPPORT))
  }

  function Supplements(evidence: seq<Evidence>): seq<Evidence> {
    Filter(Routed(evidence), AtLeast(MINIMUM_SUPPLEMENT_SUPPORT))
  }

  function Specific(evidence: seq<Evidence>): seq<Evidence> {
    Filter(Supplements(evidence), Undominated(Supplements(evidence)))
  }

  function Leader(evidence: seq<Evidence>): Option<Evidence> {
    Best(Filter(Specific(evidence), AtLeast(MINIMUM_EXECUTION_SUPPORT)), ByScore(Support(), Version()))
  }

  function Marginal(e: Evidence, coverage: seq<real>, weights: seq<real>): real {
    Weighted(Merge(coverage, e.tokenSupports), weights) - Weighted(coverage, weights)
  }

  function Utility(coverage: seq<real>, weights: seq<real>): Evidence -> real {
    (e: Evidence) => Marginal(e, coverage, weights) / (if Cost(e) > 1 then Cost(e) as real else 1.0)
  }

  function Worthwhile(selected: seq<Evidence>, coverage: seq<real>, weights: seq<real>): Evidence -> bool {
    (e: Evidence) => e !in selected && Marginal(e, coverage, weights) >= MINIMUM_MARGINAL_COVERAGE
  }

  function NextChoice(evidence: seq<Evidence>, selected: seq<Evidence>, coverage: seq<real>, weights: seq<real>): Option<Evidence> {
    Best(Filter(evidence, Worthwhile(selected, coverage, weights)), ByScores(Utility(coverage, weights), Support(), Version()))
  }

  datatype Attempt = Attempt(evidence: seq<Evidence>, coverage: seq<real>)

  /** The greedy loop from the cards selected so far. */
  function Grow(evidence: seq<Evidence>, target: seq<real>, weights: seq<real>, a: Attempt): Attempt
    decreases MAXIMUM_SELECTED_CARDS - |a.evidence|
  {
    if |a.evidence| >= MAXIMUM_SELECTED_CARDS || Preserves(a.coverage, target, weights) then a
    else
      var chosen := NextChoice(evidence, a.evidence, a.coverage, weights);
      if chosen.None? then a
      else
        Grow(evidence, target, weights,
             Attempt(a.evidence + [chosen.value], Merge(a.coverage, chosen.value.tokenSupports)))
  }

  function Greedy(evidence: seq<Evidence>, target: seq<real>, weights: seq<real>, leader: Evidence): Attempt {
    Grow(evidence, target, weights, Attempt([leader], leader.tokenSupports))
  }

  datatype Selection = Selection(evidence: seq<Evidence>, coverage: seq<real>, sufficient: bool)

  function SelectMinimumSet(evidence: seq<Evidence>, target: seq<real>, weights: seq<real>, leader: Evidence): Selection {
    var a := Greedy(evidence, target, weights, leader);
    Selection(SortBy(a.evidence, ById(Version())), a.coverage, Preserves(a.coverage, target, weights))
  }

  function Zeros(width: nat): seq<real> {
    seq(width, _ => 0.0)
  }

  function Attempted(evidence: seq<Evidence>, width: nat, weights: seq<real>): Selection {
    var leader := Leader(evidence);
    if leader.None? then Selection([], Zeros(width), false)
    else SelectMinimumSet(Specific(evidence), Aggregate(Specific(evidence), width), weights, leader.value)
  }

  function SelectedEvidence(attempted: Selection): seq<Evidence> {
    if attempted.sufficient then attempted.evidence else []
  }

  function RoutedEvidence(evidence: seq<Evidence>, selected: seq<Evidence>): seq<Evidence> {
    if selected != [] then selected
    else
      var best := Best(Routed(evidence), ByScores(Routing(), Support(), Version()));
      if best.None? then [] else [best.value]
  }

  function SortedVersions(evidence: seq<Evidence>): seq<Text> {
    SortBy(Map(Version(), evidence), ById(Itself()))
  }

  /** The plan that the evidence alone determines. */
  function Decide(tokens: seq<Text>, weights: seq<real>, evidence: seq<Evidence>): Plan {
    var width := |tokens|;
    var target := Aggregate(Specific(evidence), width);
    var attempted := Attempted(evidence, width, weights);
    var selected := SelectedEvidence(attempted);
    var routed := RoutedEvidence(evidence, selected);
    var disposition := if selected != [] then Admit else if routed != [] then Defer else Reject;
    Plan(selected != [], Map(CardOf(), selected), Map(CardOf(), routed), disposition,
         Audit(tokens, weights, SortedVersions(evidence), SortedVersions(selected), SortedVersions(routed), disposition,
               target, SortedVersions(attempted.evidence), attempted.coverage, Aggregate(selected, width),
               Deficit(attempted.coverage, target, weights),
               SortBy(evidence, ByScore(Support(), Version())), selected != []))
  }

  function EvidenceFor(x: Lexicon, tokens: seq<Text>, cards: seq<Probed>): seq<Evidence> {
    Map(EvidenceIn(x, tokens, TextsOf(AllChunks(cards))), cards)
  }

  ghost predicate DistinctCards(cards: seq<Probed>) {
    DistinctBy(CardVersion(), cards)
  }

  function CardVersion(): Probed -> Text {
    (c: Probed) => c.candidate.input.card.versionId
  }

  ghost function PlanCover(x: Lexicon, query: Text, cards: seq<Probed>): Result<Plan, CoverError>
    requires LexiconValid(x)
  {
    var tokens := x.words(query);
    if tokens == [] then Failure(NoWords)
    else if !WithinBounds(cards) then Failure(OutOfBounds)
    else if !DistinctCards(cards) then Failure(DuplicateVersion)
    else
      Success(Decide(tokens, TokenWeights(x, tokens, TextsOf(AllChunks(cards))), EvidenceFor(x, tokens, cards)))
  }
}
