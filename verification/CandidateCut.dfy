/** Which cards are probed: the union of two top-12 rankings, cut to sixteen. */
module CandidateCut {
  import opened Wrappers
  import opened RealFacts
  import opened Texts
  import opened Orders
  import opened Scores
  import opened CoverModel

  const TOP_K_PER_SIGNAL: nat := 12

  function InputVersion(): CardSignals -> Text {
    (c: CardSignals) => c.card.versionId
  }

  function Lexical(): CardSignals -> real {
    (c: CardSignals) => c.lexical
  }

  function Semantic(): CardSignals -> real {
    (c: CardSignals) => c.semantic
  }

  function CandidateVersion(): Candidate -> Text {
    (c: Candidate) => c.input.card.versionId
  }

  function CandidateRouting(): Candidate -> real {
    (c: Candidate) => c.routingSupport
  }

  function CandidateSupport(): Candidate -> real {
    (c: Candidate) => c.cardSupport
  }

  function Take<T>(xs: seq<T>, n: nat): seq<T> {
    if |xs| <= n then xs else xs[..n]
  }

  function Top(inputs: seq<CardSignals>, signal: CardSignals -> real): seq<CardSignals> {
    Take(SortBy(inputs, ByScore(signal, InputVersion())), TOP_K_PER_SIGNAL)
  }

  function IndexOf(list: seq<CardSignals>, version: Text): (i: Option<nat>)
    ensures i.Some? ==> i.value < |list| && list[i.value].card.versionId == version
    ensures i.None? ==> forall k :: 0 <= k < |list| ==> list[k].card.versionId != version
  {
    if list == [] then None
    else
      var n := |list| - 1;
      var i := IndexOf(list[..n], version);
      if i.Some? then i else if list[n].card.versionId == version then Some(n) else None
  }

  /** One at the top of a ranking, falling evenly to zero at its end; zero outside it. */
  function RankSupport(list: seq<CardSignals>, version: Text): real {
    var i := IndexOf(list, version);
    if i.None? then 0.0
    else 1.0 - i.value as real / (if |list| - 1 > 1 then (|list| - 1) as real else 1.0)
  }

  function CombinedRouting(a: real, b: real): real {
    0.8 * Max(a, b) + 0.2 * Min(a, b)
  }

  function Probe(lexical: seq<CardSignals>, semantic: seq<CardSignals>): CardSignals -> Candidate {
    (c: CardSignals) =>
      var l := RankSupport(lexical, c.card.versionId);
      var s := RankSupport(semantic, c.card.versionId);
      Candidate(c, l, s, CombinedRouting(l, s), c.hybrid)
  }

  function MissingFrom(list: seq<CardSignals>): CardSignals -> bool {
    (c: CardSignals) => IndexOf(list, c.card.versionId).None?
  }

  function Union(lexical: seq<CardSignals>, semantic: seq<CardSignals>): seq<CardSignals> {
    lexical + Filter(semantic, MissingFrom(lexical))
  }

  function RankedCandidates(inputs: seq<CardSignals>): seq<Candidate> {
    var lexical := Top(inputs, Lexical());
    var semantic := Top(inputs, Semantic());
    SortedUnion(lexical, semantic)
  }

  ghost function BuildCandidates(inputs: seq<CardSignals>): Result<seq<Candidate>, CoverError> {
    if !DistinctBy(InputVersion(), inputs) then Failure(DuplicateVersion)
    else Success(Take(RankedCandidates(inputs), MAXIMUM_CANDIDATE_CARDS))
  }

  /** The duplicate check of a ranking. */
  method CheckDistinct(inputs: seq<CardSignals>) returns (distinct: bool)
    ensures distinct <==> DistinctBy(InputVersion(), inputs)
  {
    var seen: set<Text> := {};
    for i := 0 to |inputs|
      invariant DistinctBy(InputVersion(), inputs[..i])
      invariant forall v :: v in seen <==> exists k :: 0 <= k < i && inputs[k].card.versionId == v
    {
      if inputs[i].card.versionId in seen {
        var k :| 0 <= k < i && inputs[k].card.versionId == inputs[i].card.versionId;
        assert InputVersion()(inputs[k]) == InputVersion()(inputs[i]);
        return false;
      }
      seen := seen + {inputs[i].card.versionId};
      assert forall k :: 0 <= k < i ==> InputVersion()(inputs[k]) != InputVersion()(inputs[i]);
    }
    assert inputs[..|inputs|] == inputs;
    distinct := true;
  }

  // ------------------------------------------------------------ ranked lists

  lemma TopIs(inputs: seq<CardSignals>, signal: CardSignals -> real)
    requires DistinctBy(InputVersion(), inputs)
    ensures |Top(inputs, signal)| <= TOP_K_PER_SIGNAL
    ensures DistinctBy(InputVersion(), Top(inputs, signal))
    ensures forall c :: c in Top(inputs, signal) ==> c in inputs
    ensures inputs != [] ==> Top(inputs, signal) != [] && forall c :: c in inputs ==> signal(c) <= signal(Top(inputs, signal)[0])
  {
    var before := ByScore(signal, InputVersion());
    var sorted := SortBy(inputs, before);
    ByScoresStrict(signal, Zero(), InputVersion());
    ByScoresTotal(signal, Zero(), InputVersion(), inputs);
    SortBySorts(inputs, before);
    DistinctRearranged(InputVersion(), inputs, sorted);
    SameMembers(inputs, sorted);
    forall c | c in inputs ensures signal(c) <= signal(sorted[0]) {
      var i :| 0 <= i < |sorted| && sorted[i] == c;
      assert i == 0 || before(sorted[0], sorted[i]);
    }
  }

  lemma {:induction false} IndexFound(list: seq<CardSignals>, k: nat)
    requires DistinctBy(InputVersion(), list) && k < |list|
    ensures IndexOf(list, list[k].card.versionId) == Some(k)
  {
    var i := IndexOf(list, list[k].card.versionId);
    assert i.Some?;
    SamePlace(InputVersion(), list, i.value, k);
  }

  lemma RankSupportUnit(list: seq<CardSignals>, version: Text)
    ensures 0.0 <= RankSupport(list, version) <= 1.0
    ensures RankSupport(list, version) == 1.0 ==> list != [] && list[0].card.versionId == version
  {
    var i := IndexOf(list, version);
    if i.Some? {
      var d := if |list| - 1 > 1 then (|list| - 1) as real else 1.0;
      Fraction(i.value as real, d);
    }
  }

  lemma Fraction(a: real, d: real)
    requires 0.0 <= a <= d && d >= 1.0
    ensures 0.0 <= a / d <= 1.0
    ensures a / d == 0.0 ==> a == 0.0
  {
  }

  lemma TopSupport(list: seq<CardSignals>)
    requires DistinctBy(InputVersion(), list) && list != []
    ensures RankSupport(list, list[0].card.versionId) == 1.0
  {
    IndexFound(list, 0);
  }

  /** Supports fall evenly from one at the top of a ranking to zero at its end. */
  lemma SupportFallsEvenly(list: seq<CardSignals>, k: nat)
    requires DistinctBy(InputVersion(), list) && k + 1 < |list|
    ensures RankSupport(list, list[k].card.versionId) - RankSupport(list, list[k + 1].card.versionId)
            == 1.0 / (|list| - 1) as real
    ensures RankSupport(list, list[|list| - 1].card.versionId) == 0.0
  {
    IndexFound(list, k);
    IndexFound(list, k + 1);
    IndexFound(list, |list| - 1);
    var d := (|list| - 1) as real;
    QuotientAdds(k as real, 1.0, d);
    QuotientBound(d, d);
  }

  /** A card at the top of one ranking and outside the other is supported by four
      fifths, one at the top of both fully. */
  lemma LeaderSupport(lexical: seq<CardSignals>, semantic: seq<CardSignals>)
    requires DistinctBy(InputVersion(), lexical) && lexical != []
    requires DistinctBy(InputVersion(), semantic)
    ensures var c := Probe(lexical, semantic)(lexical[0]);
            && (MissingFrom(semantic)(lexical[0]) ==> c.routingSupport == 0.8)
            && (semantic != [] && semantic[0] == lexical[0] ==> c.routingSupport == 1.0)
    ensures var c := Probe(semantic, lexical)(lexical[0]);
            MissingFrom(semantic)(lexical[0]) ==> c.routingSupport == 0.8
  {
    TopSupport(lexical);
    if semantic != [] {
      TopSupport(semantic);
    }
  }

  // ----------------------------------------------------------------- the union

  lemma UnionIs(lexical: seq<CardSignals>, semantic: seq<CardSignals>)
    requires DistinctBy(InputVersion(), lexical) && DistinctBy(InputVersion(), semantic)
    ensures DistinctBy(InputVersion(), Union(lexical, semantic))
    ensures forall c :: c in Union(lexical, semantic) ==> c in lexical || c in semantic
    ensures forall c :: c in lexical || c in semantic ==>
              exists d :: d in Union(lexical, semantic) && d.card.versionId == c.card.versionId
  {
    var extra := Filter(semantic, MissingFrom(lexical));
    FilterMembers(semantic, MissingFrom(lexical));
    FilterDistinct(InputVersion(), semantic, MissingFrom(lexical));
    var union := lexical + extra;
    forall i, j | 0 <= i < j < |union| ensures InputVersion()(union[i]) != InputVersion()(union[j]) {
      if i < |lexical| && j >= |lexical| {
        assert union[j] == extra[j - |lexical|];
        assert union[j] in extra;
      } else if i >= |lexical| {
        assert union[i] == extra[i - |lexical|] && union[j] == extra[j - |lexical|];
      }
    }
    forall c | c in lexical || c in semantic
      ensures exists d :: d in union && d.card.versionId == c.card.versionId
    {
      if c in lexical {
        assert c in union;
      } else if MissingFrom(lexical)(c) {
        assert c in extra && c in union;
      } else {
        var i := IndexOf(lexical, c.card.versionId).value;
        assert lexical[i] in union;
      }
    }
  }

  lemma RankedCandidatesAre(inputs: seq<CardSignals>)
    requires DistinctBy(InputVersion(), inputs)
    ensures var l := Top(inputs, Lexical()); var s := Top(inputs, Semantic());
            var sorted := RankedCandidates(inputs);
            && DistinctBy(CandidateVersion(), sorted)
            && SortedBy(ByScores(CandidateRouting(), CandidateSupport(), CandidateVersion()), sorted)
            && (forall c :: c in sorted ==> c == Probe(l, s)(c.input) && (c.input in l || c.input in s))
            && (forall c :: c in l || c in s ==> exists d :: d in sorted && d.input.card.versionId == c.card.versionId)
  {
    TopIs(inputs, Lexical());
    TopIs(inputs, Semantic());
    SortedUnionIs(Top(inputs, Lexical()), Top(inputs, Semantic()));
  }

  function SortedUnion(l: seq<CardSignals>, s: seq<CardSignals>): seq<Candidate> {
    SortBy(Map(Probe(l, s), Union(l, s)), ByScores(CandidateRouting(), CandidateSupport(), CandidateVersion()))
  }

  lemma SortedUnionIs(l: seq<CardSignals>, s: seq<CardSignals>)
    requires DistinctBy(InputVersion(), l) && DistinctBy(InputVersion(), s)
    ensures var sorted := SortedUnion(l, s);
            && DistinctBy(CandidateVersion(), sorted)
            && SortedBy(ByScores(CandidateRouting(), CandidateSupport(), CandidateVersion()), sorted)
            && (forall c :: c in sorted ==> c == Probe(l, s)(c.input) && (c.input in l || c.input in s))
            && (forall c :: c in l || c in s ==> exists d :: d in sorted && d.input.card.versionId == c.card.versionId)
  {
    UnionIs(l, s);
    var union := Union(l, s);
    hide Union;
    ProbedDistinct(l, s, union);
    var probed := Map(Probe(l, s), union);
    var sorted := SortedUnion(l, s);
    var before := ByScores(CandidateRouting(), CandidateSupport(), CandidateVersion());
    ByScoresStrict(CandidateRouting(), CandidateSupport(), CandidateVersion());
    ByScoresTotal(CandidateRouting(), CandidateSupport(), CandidateVersion(), probed);
    SortBySorts(probed, before);
    SameMembers(probed, sorted);
    DistinctRearranged(CandidateVersion(), probed, sorted);
    ProbedMembers(l, s, union);
  }

  lemma ProbedDistinct(l: seq<CardSignals>, s: seq<CardSignals>, union: seq<CardSignals>)
    requires DistinctBy(InputVersion(), union)
    ensures DistinctBy(CandidateVersion(), Map(Probe(l, s), union))
  {
    var probed := Map(Probe(l, s), union);
    forall i, j | 0 <= i < j < |probed| ensures CandidateVersion()(probed[i]) != CandidateVersion()(probed[j]) {
      assert CandidateVersion()(probed[i]) == InputVersion()(union[i]);
      assert CandidateVersion()(probed[j]) == InputVersion()(union[j]);
    }
  }

  lemma ProbedMembers(l: seq<CardSignals>, s: seq<CardSignals>, union: seq<CardSignals>)
    ensures forall c :: c in Map(Probe(l, s), union) ==> c == Probe(l, s)(c.input) && c.input in union
    ensures forall u :: u in union ==> exists d :: d in Map(Probe(l, s), union) && d.input.card.versionId == u.card.versionId
  {
    var probed := Map(Probe(l, s), union);
    forall c | c in probed ensures c == Probe(l, s)(c.input) && c.input in union {
      var i :| 0 <= i < |probed| && probed[i] == c;
      assert c == Probe(l, s)(union[i]);
    }
    forall u | u in union ensures exists d :: d in probed && d.input.card.versionId == u.card.versionId {
      var i :| 0 <= i < |union| && union[i] == u;
      assert probed[i] == Probe(l, s)(u) && probed[i] in probed;
    }
  }

  // -------------------------------------------------------- what the cuts leave out

  lemma TakeKeepsFirst<T(!new)>(sorted: seq<T>, n: nat, before: (T, T) -> bool)
    requires StrictOrder(before) && SortedBy(before, sorted)
    ensures |Take(sorted, n)| == if |sorted| < n then |sorted| else n
    ensures forall c :: c in Take(sorted, n) ==> c in sorted
    ensures forall c, e :: c in Take(sorted, n) && e in sorted && e !in Take(sorted, n) ==> !before(e, c)
  {
    SortedRanks(sorted, before);
    var front := Take(sorted, n);
    var rest := sorted[|front|..];
    assert sorted == front + rest;
    RankedSplit(front, rest, before);
  }

  /** A ranking holds twelve cards, or all there are, and no card outside it has a
      stronger signal than one inside, or an equal one and the smaller version. */
  lemma TopHoldsBest(inputs: seq<CardSignals>, signal: CardSignals -> real, c: CardSignals, e: CardSignals)
    requires DistinctBy(InputVersion(), inputs)
    requires c in Top(inputs, signal) && e in inputs && e !in Top(inputs, signal)
    ensures |Top(inputs, signal)| == 12
    ensures signal(e) < signal(c) || (signal(e) == signal(c) && Less(c.card.versionId, e.card.versionId))
  {
    var before := ByScore(signal, InputVersion());
    ByScoresStrict(signal, Zero(), InputVersion());
    ByScoresTotal(signal, Zero(), InputVersion(), inputs);
    SortBySorts(inputs, before);
    SameMembers(inputs, SortBy(inputs, before));
    TakeKeepsFirst(SortBy(inputs, before), TOP_K_PER_SIGNAL, before);
    hide SortBy, DistinctBy, StrictOrder, SortedBy, TotalOn;
    assert !before(e, c);
    LessTotal(c.card.versionId, e.card.versionId);
    VersionsDiffer(inputs, c, e);
  }

  lemma VersionsDiffer(inputs: seq<CardSignals>, c: CardSignals, e: CardSignals)
    requires DistinctBy(InputVersion(), inputs) && c in inputs && e in inputs && c != e
    ensures c.card.versionId != e.card.versionId
  {
    var i :| 0 <= i < |inputs| && inputs[i] == c;
    var j :| 0 <= j < |inputs| && inputs[j] == e;
    assert i < j ==> InputVersion()(inputs[i]) != InputVersion()(inputs[j]);
    assert j < i ==> InputVersion()(inputs[j]) != InputVersion()(inputs[i]);
  }

  /** A candidate is cut only when sixteen others route better, or equally well with
      more support, or with the smaller version. */
  lemma CutKeepsBest(inputs: seq<CardSignals>, c: Candidate, d: Candidate)
    requires DistinctBy(InputVersion(), inputs)
    requires c in BuildCandidates(inputs).value && d in RankedCandidates(inputs) && d !in BuildCandidates(inputs).value
    ensures |BuildCandidates(inputs).value| == 16
    ensures d.routingSupport <= c.routingSupport
    ensures d.routingSupport == c.routingSupport ==> d.cardSupport <= c.cardSupport
    ensures d.routingSupport == c.routingSupport && d.cardSupport == c.cardSupport ==>
              !Less(d.input.card.versionId, c.input.card.versionId)
  {
    var before := ByScores(CandidateRouting(), CandidateSupport(), CandidateVersion());
    ByScoresStrict(CandidateRouting(), CandidateSupport(), CandidateVersion());
    RankedCandidatesAre(inputs);
    hide RankedCandidates;
    TakeKeepsFirst(RankedCandidates(inputs), MAXIMUM_CANDIDATE_CARDS, before);
    assert !before(d, c);
  }

  // ------------------------------------------------------------- the leaders

  /** The versions that can rank before the top card of list `a`: the others of
      that list, and the top card of the other list. */
  function Rivals(a: seq<CardSignals>, b: seq<CardSignals>): set<Text> {
    (set k | 1 <= k < |a| :: a[k].card.versionId) + (if b == [] then {} else {b[0].card.versionId})
  }

  lemma {:induction false} IndexImageSize(a: seq<CardSignals>, n: nat)
    requires n <= |a|
    ensures |set k | 1 <= k < n :: a[k].card.versionId| <= if n > 0 then n - 1 else 0
    decreases n
  {
    var image := set k | 1 <= k < n :: a[k].card.versionId;
    if n <= 1 {
      assert image == {};
    } else {
      IndexImageSize(a, n - 1);
      var smaller := set k | 1 <= k < n - 1 :: a[k].card.versionId;
      assert image == smaller + {a[n - 1].card.versionId};
    }
  }

  /** A card that routes at least as well as a top card is one of its rivals. */
  lemma StrongIsRival(a: seq<CardSignals>, b: seq<CardSignals>, version: Text)
    requires a != [] && version != a[0].card.versionId
    requires CombinedRouting(RankSupport(a, version), RankSupport(b, version)) >= 0.8
    ensures version in Rivals(a, b)
  {
    RankSupportUnit(a, version);
    RankSupportUnit(b, version);
    var i := IndexOf(a, version);
    if i.Some? {
      assert a[i.value].card.versionId == version;
    }
  }

  lemma RoutingSymmetric(a: real, b: real)
    ensures CombinedRouting(a, b) == CombinedRouting(b, a)
  {
  }

  lemma {:induction false} DistinctPrefixSize(sorted: seq<Candidate>, p: nat, allowed: set<Text>)
    requires p <= |sorted| && DistinctBy(CandidateVersion(), sorted)
    requires forall q :: 0 <= q < p ==> sorted[q].input.card.versionId in allowed
    ensures p <= |allowed|
    decreases p
  {
    if p > 0 {
      var v := sorted[p - 1].input.card.versionId;
      forall q | 0 <= q < p - 1 ensures sorted[q].input.card.versionId in allowed - {v} {
        assert CandidateVersion()(sorted[q]) != CandidateVersion()(sorted[p - 1]);
      }
      DistinctPrefixSize(sorted, p - 1, allowed - {v});
    }
  }

  /** In the candidates ranked by two lists, the top card of either list has at
      most twelve before it. */
  lemma TopRanksHigh(a: seq<CardSignals>, b: seq<CardSignals>, sorted: seq<Candidate>, p: nat)
    requires a != [] && |a| <= TOP_K_PER_SIGNAL && DistinctBy(InputVersion(), a)
    requires DistinctBy(CandidateVersion(), sorted)
    requires SortedBy(ByScores(CandidateRouting(), CandidateSupport(), CandidateVersion()), sorted)
    requires forall c :: c in sorted ==>
               c.routingSupport == CombinedRouting(RankSupport(a, c.input.card.versionId), RankSupport(b, c.input.card.versionId))
    requires p < |sorted| && sorted[p].input.card.versionId == a[0].card.versionId
    ensures p <= TOP_K_PER_SIGNAL
  {
    TopSupport(a);
    RankSupportUnit(b, a[0].card.versionId);
    assert sorted[p] in sorted;
    assert sorted[p].routingSupport >= 0.8;
    forall q | 0 <= q < p ensures sorted[q].input.card.versionId in Rivals(a, b) {
      var before := ByScores(CandidateRouting(), CandidateSupport(), CandidateVersion());
      assert before(sorted[q], sorted[p]);
      assert sorted[q] in sorted;
      assert CandidateVersion()(sorted[q]) != CandidateVersion()(sorted[p]);
      StrongIsRival(a, b, sorted[q].input.card.versionId);
    }
    IndexImageSize(a, |a|);
    DistinctPrefixSize(sorted, p, Rivals(a, b));
  }

  ghost predicate HasVersion(candidates: seq<Candidate>, version: Text) {
    exists i :: 0 <= i < |candidates| && candidates[i].input.card.versionId == version
  }

  /** For any catalog without duplicate versions, the best lexical and the best
      semantic card both survive the cut to sixteen. */
  lemma LeadersSurvive(inputs: seq<CardSignals>)
    requires DistinctBy(InputVersion(), inputs) && inputs != []
    ensures var out := BuildCandidates(inputs).value;
            && HasVersion(out, Top(inputs, Lexical())[0].card.versionId)
            && HasVersion(out, Top(inputs, Semantic())[0].card.versionId)
  {
    var l, s := Top(inputs, Lexical()), Top(inputs, Semantic());
    TopIs(inputs, Lexical());
    TopIs(inputs, Semantic());
    RankedCandidatesAre(inputs);
    var sorted := RankedCandidates(inputs);
    TopSurvives(l, s, sorted, l[0]);
    forall c | c in sorted
      ensures c.routingSupport == CombinedRouting(RankSupport(s, c.input.card.versionId), RankSupport(l, c.input.card.versionId))
    {
      assert c == Probe(l, s)(c.input);
      RoutingSymmetric(RankSupport(l, c.input.card.versionId), RankSupport(s, c.input.card.versionId));
    }
    TopSurvives(s, l, sorted, s[0]);
  }

  lemma TopSurvives(a: seq<CardSignals>, b: seq<CardSignals>, sorted: seq<Candidate>, top: CardSignals)
    requires a != [] && top == a[0] && |a| <= TOP_K_PER_SIGNAL && DistinctBy(InputVersion(), a)
    requires DistinctBy(CandidateVersion(), sorted)
    requires SortedBy(ByScores(CandidateRouting(), CandidateSupport(), CandidateVersion()), sorted)
    requires forall c :: c in sorted ==>
               c.routingSupport == CombinedRouting(RankSupport(a, c.input.card.versionId), RankSupport(b, c.input.card.versionId))
    requires exists d :: d in sorted && d.input.card.versionId == top.card.versionId
    ensures HasVersion(Take(sorted, MAXIMUM_CANDIDATE_CARDS), top.card.versionId)
  {
    var d :| d in sorted && d.input.card.versionId == top.card.versionId;
    var p :| 0 <= p < |sorted| && sorted[p] == d;
    TopRanksHigh(a, b, sorted, p);
    assert Take(sorted, MAXIMUM_CANDIDATE_CARDS)[p] == d;
  }

  /** A candidate as the output holds it: a card of the catalog from one of the
      two top-12 lists. */
  ghost predicate Shaped(inputs: seq<CardSignals>, c: Candidate) {
    && c.input in inputs
    && (c.input in Top(inputs, Lexical()) || c.input in Top(inputs, Semantic()))
    && SupportsBounded(c)
  }

  ghost predicate Output(inputs: seq<CardSignals>, out: seq<Candidate>) {
    && DistinctBy(CandidateVersion(), out)
    && (forall i, j :: 0 <= i < j < |out| ==> out[i].routingSupport >= out[j].routingSupport)
    && (forall i :: 0 <= i < |out| ==> Shaped(inputs, out[i]))
  }

  /** The output has at most sixteen cards of distinct versions, best routing
      first, each from one of the two top-12 lists, with supports in [0, 1]. */
  lemma OutputShape(inputs: seq<CardSignals>)
    requires DistinctBy(InputVersion(), inputs)
    ensures |BuildCandidates(inputs).value| <= 16 && Output(inputs, BuildCandidates(inputs).value)
  {
    hide RankedCandidates, Output;
    AllShaped(inputs);
    var sorted := RankedCandidates(inputs);
    PrefixOutput(inputs, sorted, |BuildCandidates(inputs).value|);
  }

  lemma PrefixOutput(inputs: seq<CardSignals>, sorted: seq<Candidate>, n: nat)
    requires n <= |sorted| && Output(inputs, sorted)
    ensures Output(inputs, sorted[..n])
  {
    hide Shaped;
  }

  lemma AllShaped(inputs: seq<CardSignals>)
    requires DistinctBy(InputVersion(), inputs)
    ensures Output(inputs, RankedCandidates(inputs))
  {
    TopIs(inputs, Lexical());
    TopIs(inputs, Semantic());
    RankedCandidatesAre(inputs);
    RoutingDescends(RankedCandidates(inputs));
    hide RankedCandidates, Top, SupportsBounded, Probe, SortedBy, ByScores, DistinctBy;
    forall i | 0 <= i < |RankedCandidates(inputs)| ensures Shaped(inputs, RankedCandidates(inputs)[i]) {
      var c := RankedCandidates(inputs)[i];
      assert c in RankedCandidates(inputs);
      ProbedBounded(Top(inputs, Lexical()), Top(inputs, Semantic()), c.input);
    }
  }

  lemma RoutingDescends(sorted: seq<Candidate>)
    requires SortedBy(ByScores(CandidateRouting(), CandidateSupport(), CandidateVersion()), sorted)
    ensures forall i, j :: 0 <= i < j < |sorted| ==> sorted[i].routingSupport >= sorted[j].routingSupport
  {
    var before := ByScores(CandidateRouting(), CandidateSupport(), CandidateVersion());
    assert forall i, j :: 0 <= i < j < |sorted| ==> before(sorted[i], sorted[j]);
  }

  /** The routing support lies between the two rank supports, all within [0, 1]. */
  predicate SupportsBounded(c: Candidate) {
    && 0.0 <= Min(c.lexicalRankSupport, c.semanticRankSupport) <= c.routingSupport
    && c.routingSupport <= Max(c.lexicalRankSupport, c.semanticRankSupport) <= 1.0
  }

  lemma ProbedBounded(l: seq<CardSignals>, s: seq<CardSignals>, input: CardSignals)
    ensures SupportsBounded(Probe(l, s)(input))
  {
    RankSupportUnit(l, input.card.versionId);
    RankSupportUnit(s, input.card.versionId);
  }

  /** The candidates do not depend on the order of the catalog. */
  lemma CatalogOrderIrrelevant(xs: seq<CardSignals>, ys: seq<CardSignals>)
    requires multiset(xs) == multiset(ys)
    ensures BuildCandidates(xs) == BuildCandidates(ys)
  {
    if DistinctBy(InputVersion(), xs) {
      DistinctRearranged(InputVersion(), xs, ys);
      RankingRearranged(Lexical(), Zero(), InputVersion(), xs, ys);
      RankingRearranged(Semantic(), Zero(), InputVersion(), xs, ys);
    } else if DistinctBy(InputVersion(), ys) {
      DistinctRearranged(InputVersion(), ys, xs);
    }
  }
}
