/** What the greedy cover guarantees, and what each disposition means. */
module CoverGreedy {
  import opened Wrappers
  import opened RealFacts
  import opened Texts
  import opened Orders
  import opened Scores
  import opened CoverModel

  // --------------------------------------------------------- supports, weights

  predicate Unit(v: real) {
    0.0 <= v <= 1.0
  }

  /** Evidence for a query of `width` words. */
  predicate Proper(e: Evidence, width: nat) {
    |e.tokenSupports| == width && forall i :: 0 <= i < width ==> Unit(e.tokenSupports[i])
  }

  predicate AllProper(evidence: seq<Evidence>, width: nat) {
    forall e :: e in evidence ==> Proper(e, width)
  }

  predicate NonNegative(weights: seq<real>) {
    forall i :: 0 <= i < |weights| ==> weights[i] >= 0.0
  }

  lemma MaxOfUnit<T(!new)>(xs: seq<T>, f: T -> real)
    requires forall x :: x in xs ==> f(x) <= 1.0
    ensures Unit(MaxOf(xs, f))
  {
    MaxOfIsLargest(xs, f);
  }

  lemma WordSupportUnit(x: Lexicon, query: Text, candidates: seq<Text>)
    requires LexiconValid(x)
    ensures Unit(WordSupport(x, query, candidates))
  {
    MaxOfUnit(candidates, SimilarTo(x, query));
  }

  /** A chunk counts as matching a query word if and only if it holds that very word:
      similar words alone support it by at most a quarter. */
  lemma ExactWordMatches(x: Lexicon, query: Text, candidates: seq<Text>)
    requires LexiconValid(x)
    ensures 0.0 <= WordSupport(x, query, candidates) <= 1.0
    ensures WordSupport(x, query, candidates) >= 0.75 <==> query in candidates
    ensures query !in candidates ==> WordSupport(x, query, candidates) <= 0.25
  {
    MaxOfUnit(candidates, SimilarTo(x, query));
  }

  lemma RarerIsRawer(x: Lexicon, rare: Text, common: Text, texts: map<Text, Text>)
    requires LogarithmRises(x.log)
    requires |MatchingChunks(x, rare, texts)| < |MatchingChunks(x, common, texts)|
    ensures RawWeight(x, rare, texts) > RawWeight(x, common, texts)
  {
    var n, a, b := |texts| as real, |MatchingChunks(x, rare, texts)| as real, |MatchingChunks(x, common, texts)| as real;
    assert MatchingChunks(x, common, texts) <= texts.Keys;
    SubsetSize(MatchingChunks(x, common, texts), texts.Keys);
    OddsFall(n, a, b);
  }

  /** A query word that fewer chunks hold weighs more. */
  lemma RarerWeighsMore(x: Lexicon, tokens: seq<Text>, texts: map<Text, Text>, i: nat, j: nat)
    requires LexiconValid(x) && LogarithmRises(x.log) && i < |tokens| && j < |tokens|
    requires |MatchingChunks(x, tokens[i], texts)| < |MatchingChunks(x, tokens[j], texts)|
    ensures TokenWeights(x, tokens, texts)[i] > TokenWeights(x, tokens, texts)[j]
  {
    RarerIsRawer(x, tokens[i], tokens[j], texts);
    RawTotalPositive(x, tokens, texts);
    var raw := RawWeights(x, tokens, texts);
    hide RawWeight, Sum;
    QuotientGrows(raw[j], raw[i], Sum(raw));
  }

  /** A better sentence counts four times as much as a better card, and a query that
      both support equally is supported that much. */
  lemma SentenceCountsFourfold(sentence: real, card: real, more: real)
    requires 0.0 <= sentence && 0.0 <= card && 0.0 <= more && sentence + more <= 1.0 && card + more <= 1.0
    ensures var support := CombinedWholeSupport(sentence, card);
            && CombinedWholeSupport(sentence + more, card) - support
               == 4.0 * (CombinedWholeSupport(sentence, card + more) - support)
            && CombinedWholeSupport(card, card) == card
  {
  }

  /** A card's evidence rests on its best chunk: the highest sentence similarity, and
      among equals the smallest revision. */
  lemma EvidenceRests(x: Lexicon, tokens: seq<Text>, texts: map<Text, Text>, entry: Probed)
    ensures var e, chunks := EvidenceOf(x, tokens, texts, entry), ChunksOf(entry.scopes);
            && (e.evidenceChunk.None? <==> chunks == [])
            && (e.evidenceChunk.None? ==> e.sentenceSimilarity == -1.0)
            && (e.evidenceChunk.Some? ==>
                  exists best :: best in chunks && e.evidenceChunk == Some(best.id)
                    && e.sentenceSimilarity == best.sentenceSimilarity
                    && forall c :: c in chunks ==>
                         c.sentenceSimilarity <= best.sentenceSimilarity
                         && (c.sentenceSimilarity == best.sentenceSimilarity ==> !Less(c.id, best.id)))
            && e.scopeCount == |entry.scopes| && e.chunkCount == |ChunkIds(chunks)|
  {
    var chunks := ChunksOf(entry.scopes);
    ByScoresStrict(SentenceSimilarity(), Zero(), ChunkId());
    BestIsFirst(chunks, ByScore(SentenceSimilarity(), ChunkId()));
    hide ChunksOf, TokenSupports, CombinedWholeSupport, MaxOf;
    if chunks != [] {
      var best := BestChunk(chunks).value;
      assert best in chunks;
      forall c | c in chunks
        ensures c.sentenceSimilarity <= best.sentenceSimilarity
        ensures c.sentenceSimilarity == best.sentenceSimilarity ==> !Less(c.id, best.id)
      {
        assert !ByScore(SentenceSimilarity(), ChunkId())(c, best);
      }
    }
  }

  lemma EvidenceProper(x: Lexicon, tokens: seq<Text>, texts: map<Text, Text>, entry: Probed)
    requires LexiconValid(x)
    ensures Proper(EvidenceOf(x, tokens, texts, entry), |tokens|)
    ensures Unit(EvidenceOf(x, tokens, texts, entry).wholeQuerySupport)
  {
    var chunks := ChunksOf(entry.scopes);
    forall i | 0 <= i < |tokens| ensures Unit(MaxOf(chunks, ChunkSupport(x, tokens[i], texts))) {
      forall c | c in chunks ensures ChunkSupport(x, tokens[i], texts)(c) <= 1.0 {
        WordSupportUnit(x, tokens[i], if c.id in texts then x.words(texts[c.id]) else []);
      }
      MaxOfUnit(chunks, ChunkSupport(x, tokens[i], texts));
    }
  }

  lemma EvidenceForProper(x: Lexicon, tokens: seq<Text>, cards: seq<Probed>)
    requires LexiconValid(x)
    ensures AllProper(EvidenceFor(x, tokens, cards), |tokens|)
  {
    var texts := TextsOf(AllChunks(cards));
    forall e | e in EvidenceFor(x, tokens, cards) ensures Proper(e, |tokens|) {
      var i :| 0 <= i < |cards| && EvidenceFor(x, tokens, cards)[i] == e;
      EvidenceProper(x, tokens, texts, cards[i]);
    }
  }

  /** The word weights are positive and add up to one. */
  lemma TokenWeightsNormal(x: Lexicon, tokens: seq<Text>, texts: map<Text, Text>)
    requires LexiconValid(x) && tokens != []
    ensures Sum(TokenWeights(x, tokens, texts)) == 1.0
    ensures forall i :: 0 <= i < |tokens| ==> TokenWeights(x, tokens, texts)[i] > 0.0
  {
    hide RawWeight, MatchingChunks, LexiconValid;
    var raw := RawWeights(x, tokens, texts);
    var weights := TokenWeights(x, tokens, texts);
    RawTotalPositive(x, tokens, texts);
    SumScaled(raw, weights, Sum(raw));
    QuotientBound(Sum(raw), Sum(raw));
    forall i | 0 <= i < |tokens| ensures weights[i] > 0.0 {
      QuotientPositive(raw[i], Sum(raw));
    }
  }

  lemma {:induction false} SumScaled(raw: seq<real>, scaled: seq<real>, total: real)
    requires |raw| == |scaled| && total > 0.0
    requires forall i :: 0 <= i < |raw| ==> scaled[i] == raw[i] / total
    ensures Sum(scaled) == Sum(raw) / total
  {
    if raw != [] {
      var n := |raw| - 1;
      SumScaled(raw[..n], scaled[..n], total);
      QuotientAdds(Sum(raw[..n]), raw[n], total);
    }
  }

  // --------------------------------------------------------- coverage algebra

  predicate Below(a: seq<real>, b: seq<real>) {
    |a| == |b| && forall i :: 0 <= i < |a| ==> a[i] <= b[i]
  }

  lemma {:induction false} WeightedMonotone(a: seq<real>, b: seq<real>, weights: seq<real>)
    requires Below(a, b) && NonNegative(weights)
    ensures Weighted(a, weights) <= Weighted(b, weights)
  {
    if a != [] {
      var n := |a| - 1;
      WeightedMonotone(a[..n], b[..n], weights);
      ProductGrows(a[n], b[n], Item(weights, n));
    }
  }

  /** Below the target, the deficit is the difference of the weighted coverages. */
  lemma {:induction false} DeficitIsDifference(actual: seq<real>, target: seq<real>, weights: seq<real>)
    requires Below(actual, target)
    ensures Deficit(actual, target, weights) == Weighted(target, weights) - Weighted(actual, weights)
  {
    if target != [] {
      var n := |target| - 1;
      DeficitIsDifference(actual[..n], target[..n], weights);
      DeficitPrefix(actual, target[..n], weights, n);
      var w := Item(weights, n);
      assert (target[n] - actual[n]) * w == target[n] * w - actual[n] * w;
    }
  }

  lemma {:induction false} DeficitPrefix(actual: seq<real>, target: seq<real>, weights: seq<real>, n: nat)
    requires |target| <= n <= |actual|
    ensures Deficit(actual, target, weights) == Deficit(actual[..n], target, weights)
  {
    if target != [] {
      DeficitPrefix(actual, target[..|target| - 1], weights, n);
    }
  }

  lemma MergeBelow(coverage: seq<real>, e: Evidence, target: seq<real>)
    requires Below(coverage, target) && Below(e.tokenSupports, target)
    ensures Below(coverage, Merge(coverage, e.tokenSupports)) && Below(Merge(coverage, e.tokenSupports), target)
  {
  }

  /** A pick lowers the deficit by exactly its marginal coverage. */
  lemma PickLowersDeficit(coverage: seq<real>, e: Evidence, target: seq<real>, weights: seq<real>)
    requires Below(coverage, target) && Below(e.tokenSupports, target)
    ensures Deficit(Merge(coverage, e.tokenSupports), target, weights)
            == Deficit(coverage, target, weights) - Marginal(e, coverage, weights)
  {
    MergeBelow(coverage, e, target);
    DeficitIsDifference(coverage, target, weights);
    DeficitIsDifference(Merge(coverage, e.tokenSupports), target, weights);
  }

  /** Marginals never grow as coverage does. */
  lemma MarginalsShrink(e: Evidence, less: seq<real>, more: seq<real>, weights: seq<real>)
    requires Below(less, more) && |e.tokenSupports| == |less| && NonNegative(weights)
    ensures Marginal(e, more, weights) <= Marginal(e, less, weights)
  {
    MarginalsShrinkOn(e.tokenSupports, less, more, weights);
  }

  function Portion(value: real, weight: real): real {
    value * weight
  }

  lemma ShrinkingPortion(less: real, more: real, support: real, weight: real)
    requires less <= more && weight >= 0.0
    ensures Portion(Max(more, support), weight) - Portion(more, weight) <= Portion(Max(less, support), weight) - Portion(less, weight)
  {
    var a, b := Max(more, support), Max(less, support);
    ProductGrows(a - more, b - less, weight);
    assert (a - more) * weight == a * weight - more * weight;
    assert (b - less) * weight == b * weight - less * weight;
  }

  /** What the last word adds to the coverage. */
  lemma WeightedMerge(coverage: seq<real>, s: seq<real>, weights: seq<real>, n: nat)
    requires |s| == |coverage| == n + 1
    ensures Weighted(coverage, weights) == Weighted(coverage[..n], weights) + Portion(coverage[n], Item(weights, n))
    ensures Weighted(Merge(coverage, s), weights)
            == Weighted(Merge(coverage[..n], s[..n]), weights) + Portion(Max(coverage[n], s[n]), Item(weights, n))
  {
    assert Merge(coverage, s)[..n] == Merge(coverage[..n], s[..n]);
  }

  lemma {:induction false} MarginalsShrinkOn(s: seq<real>, less: seq<real>, more: seq<real>, weights: seq<real>)
    requires Below(less, more) && |s| == |less| && NonNegative(weights)
    ensures Weighted(Merge(more, s), weights) - Weighted(more, weights)
            <= Weighted(Merge(less, s), weights) - Weighted(less, weights)
  {
    hide Weighted, Merge, Max, Portion;
    if s != [] {
      var n := |s| - 1;
      WeightedMerge(more, s, weights, n);
      WeightedMerge(less, s, weights, n);
      ShrinkingPortion(less[n], more[n], s[n], Item(weights, n));
      MarginalsShrinkOn(s[..n], less[..n], more[..n], weights);
    } else {
      assert Merge(more, s) == more && Merge(less, s) == less;
    }
  }

  function MergeAll(coverage: seq<real>, es: seq<Evidence>): (merged: seq<real>)
    ensures |merged| == |coverage|
  {
    if es == [] then coverage else Merge(MergeAll(coverage, es[..|es| - 1]), es[|es| - 1].tokenSupports)
  }

  function SumMarginals(coverage: seq<real>, es: seq<Evidence>, weights: seq<real>): real {
    if es == [] then 0.0
    else SumMarginals(coverage, es[..|es| - 1], weights) + Marginal(es[|es| - 1], coverage, weights)
  }

  lemma {:induction false} MergeAllBounds(coverage: seq<real>, es: seq<Evidence>)
    requires AllProper(es, |coverage|)
    ensures Below(coverage, MergeAll(coverage, es))
    ensures forall e :: e in es ==> Below(e.tokenSupports, MergeAll(coverage, es))
  {
    if es != [] {
      var n := |es| - 1;
      assert es == es[..n] + [es[n]];
      assert forall e :: e in es[..n] ==> e in es;
      MergeAllBounds(coverage, es[..n]);
      assert es[n] in es;
    }
  }

  /** Covering with several entries gains at most the sum of what each would gain
      alone. */
  lemma {:induction false} JointGainBounded(coverage: seq<real>, es: seq<Evidence>, weights: seq<real>)
    requires AllProper(es, |coverage|) && NonNegative(weights)
    ensures Weighted(MergeAll(coverage, es), weights) - Weighted(coverage, weights) <= SumMarginals(coverage, es, weights)
  {
    if es != [] {
      var n := |es| - 1;
      assert forall e :: e in es[..n] ==> e in es;
      JointGainBounded(coverage, es[..n], weights);
      MergeAllBounds(coverage, es[..n]);
      assert es[n] in es;
      MarginalsShrink(es[n], coverage, MergeAll(coverage, es[..n]), weights);
    }
  }

  lemma {:induction false} SumMarginalsBelow(coverage: seq<real>, es: seq<Evidence>, weights: seq<real>)
    requires es != [] && forall e :: e in es ==> Marginal(e, coverage, weights) < MINIMUM_MARGINAL_COVERAGE
    ensures SumMarginals(coverage, es, weights) < MINIMUM_MARGINAL_COVERAGE * |es| as real
  {
    hide Marginal;
    var n := |es| - 1;
    assert es[n] in es;
    if n > 0 {
      assert forall e :: e in es[..n] ==> e in es;
      SumMarginalsBelow(coverage, es[..n], weights);
    } else {
      assert SumMarginals(coverage, es[..0], weights) == 0.0;
    }
  }

  // ---------------------------------------------------------------- the greedy loop

  /** The loop invariant: the cards selected so far are distinct surviving cards,
      at most four, and the coverage is their pointwise maximum. */
  ghost predicate Growing(evidence: seq<Evidence>, width: nat, a: Attempt) {
    && 1 <= |a.evidence| <= MAXIMUM_SELECTED_CARDS
    && (forall e :: e in a.evidence ==> e in evidence)
    && (forall i, j :: 0 <= i < j < |a.evidence| ==> a.evidence[i] != a.evidence[j])
    && a.coverage == Aggregate(a.evidence, width)
  }

  lemma AggregateAppend(es: seq<Evidence>, e: Evidence, width: nat)
    requires Proper(e, width)
    ensures Aggregate(es + [e], width) == Merge(Aggregate(es, width), e.tokenSupports)
  {
    forall i | 0 <= i < width
      ensures MaxOf(es + [e], At(i)) == Max(MaxOf(es, At(i)), e.tokenSupports[i])
    {
      MaxOfAppend(es, e, At(i));
    }
  }

  lemma AggregateOne(e: Evidence, width: nat)
    requires Proper(e, width)
    ensures Aggregate([e], width) == e.tokenSupports
  {
    forall i | 0 <= i < width ensures MaxOf([e], At(i)) == e.tokenSupports[i] {
      assert [e][..0] == [];
    }
  }

  lemma ChoiceIsWorthwhile(evidence: seq<Evidence>, a: Attempt, weights: seq<real>)
    ensures var c := NextChoice(evidence, a.evidence, a.coverage, weights);
            && (c.Some? ==> c.value in evidence && c.value !in a.evidence
                            && Marginal(c.value, a.coverage, weights) >= MINIMUM_MARGINAL_COVERAGE)
            && (c.None? ==> forall e :: e in evidence && e !in a.evidence
                              ==> Marginal(e, a.coverage, weights) < MINIMUM_MARGINAL_COVERAGE)
  {
    var p := Worthwhile(a.evidence, a.coverage, weights);
    var before := ByScores(Utility(a.coverage, weights), Support(), Version());
    ByScoresStrict(Utility(a.coverage, weights), Support(), Version());
    BestIsFirst(Filter(evidence, p), before);
    FilterMembers(evidence, p);
    if Filter(evidence, p) == [] {
      forall e | e in evidence && e !in a.evidence ensures !p(e) {
        assert e !in Filter(evidence, p);
      }
    }
  }

  /** What an entry costs, counting at least one. */
  function Expense(e: Evidence): real {
    if e.scopeCount + e.chunkCount > 1 then (e.scopeCount + e.chunkCount) as real else 1.0
  }

  /** Gaining `gain` for `expense` is worth less than the other. */
  predicate Poorer(gain: real, expense: real, otherGain: real, otherExpense: real) {
    gain * otherExpense < otherGain * expense
  }

  predicate Equal(gain: real, expense: real, otherGain: real, otherExpense: real) {
    gain * otherExpense == otherGain * expense
  }

  lemma WorthCompares(gain: real, expense: real, otherGain: real, otherExpense: real)
    requires expense >= 1.0 && otherExpense >= 1.0
    ensures gain / expense < otherGain / otherExpense <==> Poorer(gain, expense, otherGain, otherExpense)
    ensures gain / expense == otherGain / otherExpense <==> Equal(gain, expense, otherGain, otherExpense)
  {
    QuotientsCompare(gain, expense, otherGain, otherExpense);
  }

  lemma CheaperIsWorthMore(gain: real, cheap: real, dear: real)
    requires gain > 0.0 && cheap < dear
    ensures Poorer(gain, dear, gain, cheap)
  {
    ProductPositive(gain, dear - cheap);
    assert gain * dear == gain * cheap + gain * (dear - cheap);
  }

  /** Of all entries that could be picked, none gains more coverage for its scopes and
      chunks than the one that is; among equals it has the highest support, and then
      the smallest version. */
  lemma ChoiceIsBest(evidence: seq<Evidence>, a: Attempt, weights: seq<real>, other: Evidence)
    requires NextChoice(evidence, a.evidence, a.coverage, weights).Some?
    requires other in evidence && other !in a.evidence && Marginal(other, a.coverage, weights) >= MINIMUM_MARGINAL_COVERAGE
    ensures var chosen := NextChoice(evidence, a.evidence, a.coverage, weights).value;
            var gain, otherGain := Marginal(chosen, a.coverage, weights), Marginal(other, a.coverage, weights);
            && !Poorer(gain, Expense(chosen), otherGain, Expense(other))
            && (Equal(gain, Expense(chosen), otherGain, Expense(other)) ==>
                  && other.wholeQuerySupport <= chosen.wholeQuerySupport
                  && (other.wholeQuerySupport == chosen.wholeQuerySupport ==>
                        !Less(other.card.versionId, chosen.card.versionId)))
  {
    hide Marginal, Poorer, Equal;
    ChoiceUnbeaten(evidence, a, weights, other);
    hide NextChoice, Expense;
    var chosen := NextChoice(evidence, a.evidence, a.coverage, weights).value;
    WorthCompares(Marginal(chosen, a.coverage, weights), Expense(chosen), Marginal(other, a.coverage, weights), Expense(other));
  }

  /** A worthwhile entry has no higher gain for its expense than the choice, and on
      equal ones comes no earlier in support and version. */
  lemma ChoiceUnbeaten(evidence: seq<Evidence>, a: Attempt, weights: seq<real>, other: Evidence)
    requires NextChoice(evidence, a.evidence, a.coverage, weights).Some?
    requires other in evidence && other !in a.evidence && Marginal(other, a.coverage, weights) >= MINIMUM_MARGINAL_COVERAGE
    ensures Expense(other) >= 1.0
    ensures var chosen := NextChoice(evidence, a.evidence, a.coverage, weights).value;
            Expense(chosen) >= 1.0 &&
            var value, otherValue := Marginal(chosen, a.coverage, weights) / Expense(chosen),
                                     Marginal(other, a.coverage, weights) / Expense(other);
            && otherValue <= value
            && (otherValue == value ==>
                  && other.wholeQuerySupport <= chosen.wholeQuerySupport
                  && (other.wholeQuerySupport == chosen.wholeQuerySupport ==>
                        !Less(other.card.versionId, chosen.card.versionId)))
  {
    var p := Worthwhile(a.evidence, a.coverage, weights);
    var before := ByScores(Utility(a.coverage, weights), Support(), Version());
    ByScoresStrict(Utility(a.coverage, weights), Support(), Version());
    BestIsFirst(Filter(evidence, p), before);
    FilterMembers(evidence, p);
    hide Marginal;
    assert other in Filter(evidence, p);
    assert !before(other, NextChoice(evidence, a.evidence, a.coverage, weights).value);
  }

  /** So of two entries with the same gain the cheaper one is picked before the dearer. */
  lemma CheaperGoesFirst(evidence: seq<Evidence>, a: Attempt, weights: seq<real>, cheap: Evidence, dear: Evidence)
    requires cheap in evidence && cheap !in a.evidence
    requires Marginal(cheap, a.coverage, weights) >= MINIMUM_MARGINAL_COVERAGE
    requires Marginal(dear, a.coverage, weights) == Marginal(cheap, a.coverage, weights)
    requires 1 <= cheap.scopeCount + cheap.chunkCount < dear.scopeCount + dear.chunkCount
    ensures NextChoice(evidence, a.evidence, a.coverage, weights) != Some(dear)
  {
    hide Marginal, Poorer, NextChoice;
    if NextChoice(evidence, a.evidence, a.coverage, weights) == Some(dear) {
      ChoiceIsBest(evidence, a, weights, cheap);
      CheaperIsWorthMore(Marginal(cheap, a.coverage, weights), Expense(cheap), Expense(dear));
    }
  }

  lemma GrowStep(evidence: seq<Evidence>, width: nat, weights: seq<real>, a: Attempt)
    requires AllProper(evidence, width) && Growing(evidence, width, a) && |a.evidence| < MAXIMUM_SELECTED_CARDS
    requires NextChoice(evidence, a.evidence, a.coverage, weights).Some?
    ensures var c := NextChoice(evidence, a.evidence, a.coverage, weights).value;
            Growing(evidence, width, Attempt(a.evidence + [c], Merge(a.coverage, c.tokenSupports)))
  {
    ChoiceIsWorthwhile(evidence, a, weights);
    AggregateAppend(a.evidence, NextChoice(evidence, a.evidence, a.coverage, weights).value, width);
  }

  lemma CoverageBelowTarget(evidence: seq<Evidence>, width: nat, es: seq<Evidence>)
    requires AllProper(evidence, width) && forall e :: e in es ==> e in evidence
    ensures Below(Aggregate(es, width), Aggregate(evidence, width))
    ensures forall e :: e in evidence ==> Below(e.tokenSupports, Aggregate(evidence, width))
  {
    forall i | 0 <= i < width ensures MaxOf(es, At(i)) <= MaxOf(evidence, At(i)) {
      MaxOfMembers(es, evidence, At(i));
    }
    forall e, i | e in evidence && 0 <= i < width ensures e.tokenSupports[i] <= MaxOf(evidence, At(i)) {
      MaxOfIsLargest(evidence, At(i));
      assert At(i)(e) == e.tokenSupports[i];
    }
  }

  /** What the loop leaves: the invariant, a deficit that fell by at least one
      hundredth with every pick, and one of three reasons for stopping. */
  lemma {:induction false} GrowResult(evidence: seq<Evidence>, width: nat, weights: seq<real>, a: Attempt)
    requires AllProper(evidence, width) && Growing(evidence, width, a)
    ensures var target := Aggregate(evidence, width);
            var r := Grow(evidence, target, weights, a);
            && Growing(evidence, width, r)
            && a.evidence <= r.evidence
            && Deficit(r.coverage, target, weights)
               <= Deficit(a.coverage, target, weights) - MINIMUM_MARGINAL_COVERAGE * (|r.evidence| - |a.evidence|) as real
            && (Preserves(r.coverage, target, weights)
                || |r.evidence| == MAXIMUM_SELECTED_CARDS
                || NextChoice(evidence, r.evidence, r.coverage, weights).None?)
    decreases MAXIMUM_SELECTED_CARDS - |a.evidence|
  {
    hide Marginal, Deficit, NextChoice;
    var target := Aggregate(evidence, width);
    if |a.evidence| < MAXIMUM_SELECTED_CARDS && !Preserves(a.coverage, target, weights) {
      var chosen := NextChoice(evidence, a.evidence, a.coverage, weights);
      if chosen.Some? {
        var c := chosen.value;
        var b := Attempt(a.evidence + [c], Merge(a.coverage, c.tokenSupports));
        GrowStep(evidence, width, weights, a);
        ChoiceIsWorthwhile(evidence, a, weights);
        CoverageBelowTarget(evidence, width, a.evidence);
        PickLowersDeficit(a.coverage, c, target, weights);
        GrowResult(evidence, width, weights, b);
        var r := Grow(evidence, target, weights, b);
        assert (|r.evidence| - |a.evidence|) as real == (|r.evidence| - |b.evidence|) as real + 1.0;
      }
    }
  }

  function Beyond(selected: seq<Evidence>): Evidence -> bool {
    (e: Evidence) => e !in selected
  }

  function Unselected(evidence: seq<Evidence>, selected: seq<Evidence>): seq<Evidence> {
    Filter(evidence, Beyond(selected))
  }

  /** Whatever the selection misses of the target, the entries not selected would
      add between them. */
  lemma DeficitBoundedByMarginals(evidence: seq<Evidence>, width: nat, weights: seq<real>, a: Attempt)
    requires AllProper(evidence, width) && Growing(evidence, width, a) && NonNegative(weights)
    ensures Deficit(a.coverage, Aggregate(evidence, width), weights)
            <= SumMarginals(a.coverage, Unselected(evidence, a.evidence), weights)
  {
    var target := Aggregate(evidence, width);
    var rest := Unselected(evidence, a.evidence);
    FilterMembers(evidence, Beyond(a.evidence));
    CoverageBelowTarget(evidence, width, a.evidence);
    DeficitIsDifference(a.coverage, target, weights);
    MergeAllBounds(a.coverage, rest);
    var all := MergeAll(a.coverage, rest);
    forall i | 0 <= i < width ensures target[i] <= all[i] {
      MaxOfIsLargest(evidence, At(i));
      MaxOfIsLargest(a.evidence, At(i));
      if target[i] > 0.0 {
        var e :| e in evidence && At(i)(e) == target[i];
        if e in a.evidence {
          assert At(i)(e) <= a.coverage[i];
        } else {
          assert e in rest;
          assert Below(e.tokenSupports, all);
        }
      }
    }
    WeightedMonotone(target, all, weights);
    JointGainBounded(a.coverage, rest, weights);
  }

  /** If the loop ends for lack of a worthwhile choice while the target is not
      met, at least three surviving entries remain unselected: two of them could
      close a gap of at most 0.02. */
  lemma StuckLeavesThree(evidence: seq<Evidence>, width: nat, weights: seq<real>, a: Attempt)
    requires AllProper(evidence, width) && Growing(evidence, width, a) && NonNegative(weights)
    requires !Preserves(a.coverage, Aggregate(evidence, width), weights)
    requires NextChoice(evidence, a.evidence, a.coverage, weights).None?
    ensures |Unselected(evidence, a.evidence)| >= 3
  {
    hide Marginal, Deficit, NextChoice, Growing;
    var rest := Unselected(evidence, a.evidence);
    DeficitBoundedByMarginals(evidence, width, weights, a);
    ChoiceIsWorthwhile(evidence, a, weights);
    FilterMembers(evidence, Beyond(a.evidence));
    if rest != [] {
      SumMarginalsBelow(a.coverage, rest, weights);
    }
  }

  lemma {:induction false} SelectedAndRest(evidence: seq<Evidence>, selected: seq<Evidence>)
    requires forall i, j :: 0 <= i < j < |selected| ==> selected[i] != selected[j]
    requires forall e :: e in selected ==> e in evidence
    ensures |selected| + |Unselected(evidence, selected)| <= |evidence|
    decreases |selected|
  {
    if selected == [] {
      FilterAll(evidence);
    } else {
      var n := |selected| - 1;
      var e := selected[n];
      assert e !in selected[..n] && e in evidence;
      assert forall s :: s in selected[..n] ==> s in selected;
      SelectedAndRest(evidence, selected[..n]);
      assert selected == selected[..n] + [e];
      LosesOne(evidence, selected[..n], e);
    }
  }

  lemma {:induction false} FilterAll(evidence: seq<Evidence>)
    ensures Unselected(evidence, []) == evidence
  {
    if evidence != [] {
      FilterAll(evidence[1..]);
    }
  }

  lemma {:induction false} LosesOne(evidence: seq<Evidence>, selected: seq<Evidence>, e: Evidence)
    requires e !in selected
    ensures |Unselected(evidence, selected + [e])| <= |Unselected(evidence, selected)|
    ensures e in evidence ==> |Unselected(evidence, selected + [e])| < |Unselected(evidence, selected)|
  {
    if evidence != [] {
      LosesOne(evidence[1..], selected, e);
      assert evidence == [evidence[0]] + evidence[1..];
    }
  }

  /** An attempt that misses the target had at least four surviving entries. */
  lemma InsufficientNeedsFour(evidence: seq<Evidence>, width: nat, weights: seq<real>, leader: Evidence)
    requires AllProper(evidence, width) && NonNegative(weights) && leader in evidence
    requires var target := Aggregate(evidence, width);
             !Preserves(Greedy(evidence, target, weights, leader).coverage, target, weights)
    ensures |evidence| >= 4
  {
    var target := Aggregate(evidence, width);
    var start := Attempt([leader], leader.tokenSupports);
    AggregateOne(leader, width);
    GrowResult(evidence, width, weights, start);
    var r := Greedy(evidence, target, weights, leader);
    SelectedAndRest(evidence, r.evidence);
    if NextChoice(evidence, r.evidence, r.coverage, weights).None? {
      StuckLeavesThree(evidence, width, weights, r);
    }
  }

  // ---------------------------------------------------------- domination filter

  /** Every dropped supplement is outdone by a surviving one: the same evidence
      chunk at a strictly lower cost. */
  lemma {:induction false} DroppedIsOutdone(evidence: seq<Evidence>, e: Evidence)
    requires e in Supplements(evidence) && e !in Specific(evidence)
    ensures exists s :: s in Specific(evidence) && s.evidenceChunk.Some? && s.evidenceChunk == e.evidenceChunk && Cost(s) < Cost(e)
    decreases Cost(e)
  {
    var supplements := Supplements(evidence);
    FilterMembers(supplements, Undominated(supplements));
    var other :| other in supplements && Dominates(other, e);
    if other !in Specific(evidence) {
      DroppedIsOutdone(evidence, other);
    }
  }

  /** There are survivors exactly when there are supplements. */
  lemma SurvivorsExist(evidence: seq<Evidence>)
    ensures Specific(evidence) == [] <==> Supplements(evidence) == []
  {
    FilterMembers(Supplements(evidence), Undominated(Supplements(evidence)));
    if Supplements(evidence) != [] {
      var e := Supplements(evidence)[0];
      if e !in Specific(evidence) {
        DroppedIsOutdone(evidence, e);
      }
    }
  }

  /** No survivor outdoes another. */
  lemma SurvivorsIncomparable(evidence: seq<Evidence>)
    ensures forall a, b :: a in Specific(evidence) && b in Specific(evidence) ==> !Dominates(a, b)
  {
    FilterMembers(Supplements(evidence), Undominated(Supplements(evidence)));
  }

  // --------------------------------------------------------------- disposition

  lemma SpecificMembers(evidence: seq<Evidence>)
    ensures forall e :: e in Specific(evidence) ==> e in evidence && e.wholeQuerySupport >= MINIMUM_SUPPLEMENT_SUPPORT
    ensures forall e :: e in Routed(evidence) <==> e in evidence && e.wholeQuerySupport >= MINIMUM_ROUTING_SUPPORT
  {
    FilterMembers(evidence, AtLeast(MINIMUM_ROUTING_SUPPORT));
    FilterMembers(Routed(evidence), AtLeast(MINIMUM_SUPPLEMENT_SUPPORT));
    FilterMembers(Supplements(evidence), Undominated(Supplements(evidence)));
  }

  /** The leader is the best-supported survivor at or above 0.89, and among equals the
      one with the smallest version. */
  lemma LeaderIs(evidence: seq<Evidence>)
    ensures Leader(evidence).Some? <==> exists e :: e in Specific(evidence) && e.wholeQuerySupport >= MINIMUM_EXECUTION_SUPPORT
    ensures Leader(evidence).Some? ==>
              && Leader(evidence).value in Specific(evidence)
              && Leader(evidence).value.wholeQuerySupport >= MINIMUM_EXECUTION_SUPPORT
              && forall e :: e in Specific(evidence) ==>
                   && e.wholeQuerySupport <= Leader(evidence).value.wholeQuerySupport
                   && (e.wholeQuerySupport == Leader(evidence).value.wholeQuerySupport ==>
                         !Less(e.card.versionId, Leader(evidence).value.card.versionId))
  {
    var p := AtLeast(MINIMUM_EXECUTION_SUPPORT);
    FilterMembers(Specific(evidence), p);
    ByScoresStrict(Support(), Zero(), Version());
    BestIsFirst(Filter(Specific(evidence), p), ByScore(Support(), Version()));
    if Leader(evidence).Some? {
      var leader := Leader(evidence).value;
      forall e | e in Specific(evidence)
        ensures e.wholeQuerySupport <= leader.wholeQuerySupport
        ensures e.wholeQuerySupport == leader.wholeQuerySupport ==> !Less(e.card.versionId, leader.card.versionId)
      {
        if p(e) {
          assert e in Filter(Specific(evidence), p);
          assert !ByScore(Support(), Version())(e, leader);
        }
      }
    } else {
      forall e | e in Specific(evidence) ensures !p(e) {
        assert e !in Filter(Specific(evidence), p);
      }
    }
  }

  /** An attempt with a leader: one to four distinct survivors, the leader among
      them, and the coverage is theirs. */
  lemma AttemptIs(evidence: seq<Evidence>, width: nat, weights: seq<real>)
    requires AllProper(evidence, width) && Leader(evidence).Some?
    ensures var t := Attempted(evidence, width, weights);
            && 1 <= |t.evidence| <= 4
            && Leader(evidence).value in t.evidence
            && (forall e :: e in t.evidence ==> e in Specific(evidence))
            && (forall i, j :: 0 <= i < j < |t.evidence| ==> t.evidence[i] != t.evidence[j])
            && t.coverage == Aggregate(t.evidence, width)
            && Below(t.coverage, Aggregate(Specific(evidence), width))
            && (t.sufficient <==> Deficit(t.coverage, Aggregate(Specific(evidence), width), weights) <= COVERAGE_TOLERANCE)
  {
    LeaderIs(evidence);
    SpecificMembers(evidence);
    var specific := Specific(evidence);
    var leader := Leader(evidence).value;
    var start := Attempt([leader], leader.tokenSupports);
    AggregateOne(leader, width);
    GrowResult(specific, width, weights, start);
    var r := Greedy(specific, Aggregate(specific, width), weights, leader);
    assert r.evidence[0] == leader;
    CoverageBelowTarget(specific, width, r.evidence);
    ByScoresStrict(Zero<Evidence>(), Zero<Evidence>(), Version());
    SortBySorts(r.evidence, ById(Version()));
    SortedKeeps(r.evidence, SortBy(r.evidence, ById(Version())), width);
  }

  lemma SortedKeeps(es: seq<Evidence>, sorted: seq<Evidence>, width: nat)
    requires multiset(es) == multiset(sorted)
    requires forall i, j :: 0 <= i < j < |es| ==> es[i] != es[j]
    ensures |sorted| == |es| && Aggregate(es, width) == Aggregate(sorted, width)
    ensures forall e :: e in sorted <==> e in es
    ensures forall i, j :: 0 <= i < j < |sorted| ==> sorted[i] != sorted[j]
  {
    SameMembers(es, sorted);
    forall i | 0 <= i < width ensures MaxOf(es, At(i)) == MaxOf(sorted, At(i)) {
      MaxOfMembers(es, sorted, At(i));
      MaxOfMembers(sorted, es, At(i));
    }
    assert DistinctBy(Whole(), es);
    DistinctRearranged(Whole(), es, sorted);
    forall i, j | 0 <= i < j < |sorted| ensures sorted[i] != sorted[j] {
      assert Whole()(sorted[i]) != Whole()(sorted[j]);
    }
  }

  function Whole(): Evidence -> Evidence {
    (e: Evidence) => e
  }

  /** `d` does not come before `e` among the cards to route. */
  predicate RoutesNoSooner(d: Evidence, e: Evidence) {
    || d.routingSupport < e.routingSupport
    || (d.routingSupport == e.routingSupport
        && (d.wholeQuerySupport < e.wholeQuerySupport
            || (d.wholeQuerySupport == e.wholeQuerySupport && !Less(d.card.versionId, e.card.versionId))))
  }

  /** What each disposition means. Admitted plans execute one to four distinct
      surviving cards, all at or above 0.86 and one at or above 0.89, within
      0.025 of the coverage all survivors reach together; deferred plans route
      exactly the routable card with the strongest BM25 signal, among equals the
      best supported and then the smallest version; a plan is
      rejected exactly when no card reaches 0.82. */
  lemma DispositionMeans(tokens: seq<Text>, weights: seq<real>, evidence: seq<Evidence>)
    requires AllProper(evidence, |tokens|)
    ensures var plan := Decide(tokens, weights, evidence);
            var selected := SelectedEvidence(Attempted(evidence, |tokens|, weights));
            && plan.selectedCards == Map(CardOf(), selected)
            && (plan.disposition.Admit? <==> plan.executable)
            && (plan.disposition.Admit? <==> plan.selectedCards != [])
            && (plan.disposition.Admit? ==>
                  && 1 <= |selected| <= 4 && plan.routedCards == plan.selectedCards
                  && (forall e :: e in selected ==> e in Specific(evidence) && e.wholeQuerySupport >= 0.86)
                  && (exists e :: e in selected && e.wholeQuerySupport >= 0.89)
                  && (forall i, j :: 0 <= i < j < |selected| ==> selected[i] != selected[j])
                  && Deficit(Aggregate(selected, |tokens|), plan.audit.targetCoverage, weights) <= 0.025)
            && (plan.disposition.Defer? ==>
                  exists e :: e in evidence && e.wholeQuerySupport >= 0.82 && plan.routedCards == [e.card]
                    && forall d :: d in evidence && d.wholeQuerySupport >= 0.82 ==> RoutesNoSooner(d, e))
            && (plan.disposition.Reject? <==> forall e :: e in evidence ==> e.wholeQuerySupport < 0.82)
            && (plan.disposition.Reject? ==> plan.routedCards == [])
  {
    var width := |tokens|;
    var selected := SelectedEvidence(Attempted(evidence, width, weights));
    SpecificMembers(evidence);
    LeaderIs(evidence);
    if Leader(evidence).Some? {
      AttemptIs(evidence, width, weights);
    }
    BestRoutedIs(evidence);
    assert selected == [] <==> Map(CardOf(), selected) == [];
    if selected != [] {
      assert Leader(evidence).value in selected;
    }
  }

  lemma BestRoutedIs(evidence: seq<Evidence>)
    ensures var best := Best(Routed(evidence), ByScores(Routing(), Support(), Version()));
            && (best.None? <==> forall e :: e in evidence ==> e.wholeQuerySupport < MINIMUM_ROUTING_SUPPORT)
            && (best.Some? ==>
                  && best.value in evidence && best.value.wholeQuerySupport >= MINIMUM_ROUTING_SUPPORT
                  && Map(CardOf(), [best.value]) == [best.value.card]
                  && forall d :: d in evidence && d.wholeQuerySupport >= MINIMUM_ROUTING_SUPPORT ==> RoutesNoSooner(d, best.value))
  {
    SpecificMembers(evidence);
    ByScoresStrict(Routing(), Support(), Version());
    BestIsFirst(Routed(evidence), ByScores(Routing(), Support(), Version()));
    if Routed(evidence) == [] {
      forall e | e in evidence ensures e.wholeQuerySupport < MINIMUM_ROUTING_SUPPORT {
        assert e !in Routed(evidence);
      }
    } else {
      assert Routed(evidence)[0] in Routed(evidence);
      var best := Best(Routed(evidence), ByScores(Routing(), Support(), Version())).value;
      forall d | d in Routed(evidence) ensures RoutesNoSooner(d, best) {
        assert !ByScores(Routing(), Support(), Version())(d, best);
      }
    }
  }

  /** With a leader and at most three survivors the plan always admits. */
  lemma FewSurvivorsAdmit(tokens: seq<Text>, weights: seq<real>, evidence: seq<Evidence>)
    requires AllProper(evidence, |tokens|) && NonNegative(weights)
    requires |Specific(evidence)| <= 3 && exists e :: e in Specific(evidence) && e.wholeQuerySupport >= 0.89
    ensures Decide(tokens, weights, evidence).disposition.Admit?
  {
    var width := |tokens|;
    LeaderIs(evidence);
    SpecificMembers(evidence);
    var target := Aggregate(Specific(evidence), width);
    if !Preserves(Greedy(Specific(evidence), target, weights, Leader(evidence).value).coverage, target, weights) {
      InsufficientNeedsFour(Specific(evidence), width, weights, Leader(evidence).value);
    }
    AttemptIs(evidence, width, weights);
  }

  /** A plan that is made rests on proper evidence with distinct versions and on
      positive weights that add up to one, so everything above applies to it. */
  lemma PlanRestsOn(x: Lexicon, query: Text, cards: seq<Probed>)
    requires LexiconValid(x) && PlanCover(x, query, cards).Success?
    ensures var tokens := x.words(query);
            var weights := TokenWeights(x, tokens, TextsOf(AllChunks(cards)));
            var evidence := EvidenceFor(x, tokens, cards);
            && tokens != []
            && PlanCover(x, query, cards).value == Decide(tokens, weights, evidence)
            && AllProper(evidence, |tokens|) && DistinctBy(Version(), evidence) && |evidence| == |cards|
            && NonNegative(weights) && Sum(weights) == 1.0
  {
    var tokens := x.words(query);
    EvidenceForProper(x, tokens, cards);
    TokenWeightsNormal(x, tokens, TextsOf(AllChunks(cards)));
    hide LexiconValid, WithinBounds, DistinctCards, Decide, TokenWeights, EvidenceFor, AllProper, NonNegative, Sum, DistinctBy;
    EvidenceDistinct(x, tokens, cards);
  }

  lemma EvidenceDistinct(x: Lexicon, tokens: seq<Text>, cards: seq<Probed>)
    requires DistinctCards(cards)
    ensures DistinctBy(Version(), EvidenceFor(x, tokens, cards)) && |EvidenceFor(x, tokens, cards)| == |cards|
  {
    var evidence := EvidenceFor(x, tokens, cards);
    forall i, j | 0 <= i < j < |evidence| ensures Version()(evidence[i]) != Version()(evidence[j]) {
      assert Version()(evidence[i]) == CardVersion()(cards[i]);
      assert Version()(evidence[j]) == CardVersion()(cards[j]);
    }
  }
}
