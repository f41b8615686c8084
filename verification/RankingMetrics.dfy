/**
 Ranking quality: discounted gain against the ideal order, and the nearest-rank
 percentile.

 The discount of a position is a parameter, of which only this is used: it is
 positive and falls strictly from one position to the next.
 */
module RankingMetrics {
  import opened Wrappers
  import opened Texts
  import opened Orders
  import opened RealFacts

  type Discount = nat -> real

  ghost predicate Discounts(discount: Discount) {
    && (forall i: nat :: discount(i) > 0.0)
    && (forall i: nat, j: nat :: i < j ==> discount(j) < discount(i))
  }

  // ------------------------------------------------------------ discounted gain

  function Dcg(discount: Discount, ids: seq<Text>, relevant: set<Text>): real {
    if ids == [] then 0.0
    else
      var last := |ids| - 1;
      Dcg(discount, ids[..last], relevant) + if ids[last] in relevant then discount(last) else 0.0
  }

  /** The gain of `k` relevant positions in a row. */
  function Ideal(discount: Discount, k: nat): real {
    if k == 0 then 0.0 else Ideal(discount, k - 1) + discount(k - 1)
  }

  /** Positions that count for the ideal. */
  function Limit(cutoff: int, relevant: set<Text>): nat {
    if cutoff < 0 then 0 else if cutoff < |relevant| then cutoff else |relevant|
  }

  function Ndcg(discount: Discount, ids: seq<Text>, relevant: set<Text>, cutoff: int): real {
    var ideal := Ideal(discount, Limit(cutoff, relevant));
    if ideal == 0.0 then 0.0 else Dcg(discount, ids, relevant) / ideal
  }

  function Hits(ids: seq<Text>, relevant: set<Text>): nat {
    if ids == [] then 0
    else Hits(ids[..|ids| - 1], relevant) + if ids[|ids| - 1] in relevant then 1 else 0
  }

  predicate Unique(ids: seq<Text>) {
    forall i, j :: 0 <= i < j < |ids| ==> ids[i] != ids[j]
  }

  /** Every one of the first `k` positions is relevant. */
  predicate Leading(ids: seq<Text>, relevant: set<Text>, k: nat) {
    k <= |ids| && forall i :: 0 <= i < k ==> ids[i] in relevant
  }

  lemma {:induction false} HitsBounded(ids: seq<Text>, relevant: set<Text>)
    ensures Hits(ids, relevant) <= |ids|
    ensures Hits(ids, relevant) == |ids| <==> Leading(ids, relevant, |ids|)
  {
    if ids != [] {
      HitsBounded(ids[..|ids| - 1], relevant);
    }
  }

  /** Without duplicates there are no more hits than relevant items. */
  lemma {:induction false} HitsDistinct(ids: seq<Text>, relevant: set<Text>)
    requires Unique(ids)
    ensures Hits(ids, relevant) <= |relevant|
    decreases |ids|
  {
    if ids != [] {
      var last := |ids| - 1;
      if ids[last] in relevant {
        HitsWithout(ids[..last], relevant, ids[last]);
        HitsDistinct(ids[..last], relevant - {ids[last]});
      } else {
        HitsDistinct(ids[..last], relevant);
      }
    }
  }

  lemma {:induction false} HitsWithout(ids: seq<Text>, relevant: set<Text>, id: Text)
    requires id !in ids
    ensures Hits(ids, relevant) == Hits(ids, relevant - {id})
  {
    if ids != [] {
      HitsWithout(ids[..|ids| - 1], relevant, id);
    }
  }

  lemma LeadingCut(ids: seq<Text>, relevant: set<Text>, k: nat)
    requires k < |ids|
    ensures Leading(ids, relevant, k) <==> Leading(ids[..|ids| - 1], relevant, k)
  {
  }

  lemma LeadingNext(ids: seq<Text>, relevant: set<Text>)
    requires ids != []
    ensures Leading(ids, relevant, |ids|) <==> Leading(ids[..|ids| - 1], relevant, |ids| - 1) && ids[|ids| - 1] in relevant
  {
  }

  /** A further hit keeps the hits in front exactly when all before it were hits. */
  lemma LeadingSplit(ids: seq<Text>, relevant: set<Text>)
    requires ids != []
    ensures var last := |ids| - 1; var h := Hits(ids[..last], relevant);
            && h <= last
            && (h == last ==> Leading(ids[..last], relevant, h))
            && (Leading(ids, relevant, Hits(ids, relevant))
                <==> Leading(ids[..last], relevant, h) && (ids[last] in relevant ==> h == last))
  {
    var last := |ids| - 1;
    var h := Hits(ids[..last], relevant);
    assert Hits(ids, relevant) == h + if ids[last] in relevant then 1 else 0;
    hide Hits, Leading;
    HitsBounded(ids[..last], relevant);
    if h < last {
      HitsInFront(ids[..last], relevant, h);
      LeadingCut(ids, relevant, h);
      LeadingCut(ids, relevant, h + 1);
    } else {
      LeadingNext(ids, relevant);
      LeadingCut(ids, relevant, last);
    }
  }

  /** As many hits never gain more than they would in front, and gain as much
      exactly when they are in front. */
  lemma {:induction false} DcgBound(discount: Discount, ids: seq<Text>, relevant: set<Text>)
    requires Discounts(discount)
    ensures 0.0 <= Dcg(discount, ids, relevant) <= Ideal(discount, Hits(ids, relevant))
    ensures Dcg(discount, ids, relevant) == Ideal(discount, Hits(ids, relevant))
            <==> Leading(ids, relevant, Hits(ids, relevant))
  {
    if ids != [] {
      var last := |ids| - 1;
      DcgBound(discount, ids[..last], relevant);
      LeadingSplit(ids, relevant);
      hide Leading;
      assert Hits(ids[..last], relevant) < last ==> discount(last) < discount(Hits(ids[..last], relevant));
    }
  }

  /** With `h` hits in all, no position after `h` leading hits is a hit. */
  lemma {:induction false} HitsInFront(ids: seq<Text>, relevant: set<Text>, h: nat)
    requires h == Hits(ids, relevant) < |ids|
    ensures !Leading(ids, relevant, h + 1)
  {
    if Leading(ids, relevant, h + 1) {
      HitsAtLeast(ids, relevant, h + 1);
    }
  }

  lemma {:induction false} HitsAtLeast(ids: seq<Text>, relevant: set<Text>, k: nat)
    requires Leading(ids, relevant, k)
    ensures Hits(ids, relevant) >= k
  {
    if |ids| > k {
      HitsAtLeast(ids[..|ids| - 1], relevant, k);
    } else {
      HitsBounded(ids, relevant);
    }
  }

  lemma {:induction false} IdealGrows(discount: Discount, k: nat, m: nat)
    requires Discounts(discount) && k <= m
    ensures Ideal(discount, k) <= Ideal(discount, m)
    ensures k < m ==> Ideal(discount, k) < Ideal(discount, m)
  {
    if k < m {
      IdealGrows(discount, k, m - 1);
    }
  }

  /** The result has no more hits than the ideal counts, or the ideal counts none. */
  predicate Fits(ids: seq<Text>, relevant: set<Text>, cutoff: int) {
    Limit(cutoff, relevant) == 0 || Hits(ids, relevant) <= Limit(cutoff, relevant)
  }

  /** Results without duplicates and no longer than the cutoff fit. */
  lemma ShortDistinctFits(ids: seq<Text>, relevant: set<Text>, cutoff: int)
    requires Unique(ids) && |ids| <= cutoff
    ensures Fits(ids, relevant, cutoff)
  {
    HitsDistinct(ids, relevant);
    HitsBounded(ids, relevant);
  }

  lemma NdcgWithinUnit(discount: Discount, ids: seq<Text>, relevant: set<Text>, cutoff: int)
    requires Discounts(discount) && Fits(ids, relevant, cutoff)
    ensures 0.0 <= Ndcg(discount, ids, relevant, cutoff) <= 1.0
  {
    var limit := Limit(cutoff, relevant);
    if limit > 0 {
      DcgBound(discount, ids, relevant);
      IdealGrows(discount, Hits(ids, relevant), limit);
      IdealGrows(discount, 0, limit);
      QuotientBound(Dcg(discount, ids, relevant), Ideal(discount, limit));
    }
  }

  /** A discount so flat that one hit more than `limit` outweighs `limit` leading ones. */
  function Flat(limit: nat): Discount {
    (i: nat) => 1.0 + 1.0 / (limit + 1 + i) as real
  }

  lemma FlatFalls(limit: nat)
    ensures Discounts(Flat(limit))
    ensures forall i: nat :: 1.0 < Flat(limit)(i) <= 1.0 + 1.0 / (limit + 1) as real
  {
    forall i: nat ensures 1.0 < Flat(limit)(i) <= 1.0 + 1.0 / (limit + 1) as real {
      QuotientPositive(1.0, (limit + 1 + i) as real);
      if i > 0 {
        FlatStep(limit, 0, i);
      }
    }
    forall i: nat, j: nat | i < j ensures Flat(limit)(j) < Flat(limit)(i) {
      FlatStep(limit, i, j);
    }
  }

  lemma FlatStep(limit: nat, i: nat, j: nat)
    requires i < j
    ensures Flat(limit)(j) < Flat(limit)(i)
  {
    var a, b := (limit + 1 + i) as real, (limit + 1 + j) as real;
    QuotientPositive(1.0, a);
    QuotientPositive(1.0, b);
    assert (1.0 / a) * a == 1.0 && (1.0 / b) * b == 1.0;
    ReciprocalFalls(1.0 / a, a, 1.0 / b, b);
  }

  lemma {:induction false} FlatGain(limit: nat, ids: seq<Text>, relevant: set<Text>)
    ensures Dcg(Flat(limit), ids, relevant) >= Hits(ids, relevant) as real
  {
    if ids != [] {
      FlatFalls(limit);
      FlatGain(limit, ids[..|ids| - 1], relevant);
    }
  }

  lemma {:induction false} FlatIdeal(limit: nat, k: nat)
    ensures Ideal(Flat(limit), k) <= k as real + k as real * (1.0 / (limit + 1) as real)
  {
    if k > 0 {
      FlatFalls(limit);
      FlatIdeal(limit, k - 1);
      var share := 1.0 / (limit + 1) as real;
      assert k as real * share == (k - 1) as real * share + share;
    }
  }

  lemma FlatIdealBelow(limit: nat)
    ensures Ideal(Flat(limit), limit) < (limit + 1) as real
  {
    var n := limit as real;
    var share := 1.0 / (limit + 1) as real;
    FlatIdeal(limit, limit);
    hide Ideal, Flat;
    QuotientPositive(1.0, (limit + 1) as real);
    assert share * (limit + 1) as real == 1.0;
    ShareOfRest(n, share);
  }

  lemma ShareOfRest(n: real, share: real)
    requires share * (n + 1.0) == 1.0
    ensures n * share == 1.0 - share
  {
  }

  /** Under the flat discount a result that does not fit exceeds 1. */
  lemma FlatOverflows(ids: seq<Text>, relevant: set<Text>, cutoff: int)
    requires !Fits(ids, relevant, cutoff)
    ensures Ndcg(Flat(Limit(cutoff, relevant)), ids, relevant, cutoff) > 1.0
  {
    var limit := Limit(cutoff, relevant);
    FlatFalls(limit);
    FlatGain(limit, ids, relevant);
    FlatIdealBelow(limit);
    IdealGrows(Flat(limit), 0, limit);
    hide Dcg, Flat;
    QuotientBound(Dcg(Flat(limit), ids, relevant), Ideal(Flat(limit), limit));
  }

  /** The exact condition: a result scores between 0 and 1 under every discount
      exactly when it fits. */
  lemma NdcgWithinUnitIff(ids: seq<Text>, relevant: set<Text>, cutoff: int)
    ensures (forall d: Discount :: Discounts(d) ==> 0.0 <= Ndcg(d, ids, relevant, cutoff) <= 1.0)
            <==> Fits(ids, relevant, cutoff)
  {
    if Fits(ids, relevant, cutoff) {
      forall d: Discount | Discounts(d) ensures 0.0 <= Ndcg(d, ids, relevant, cutoff) <= 1.0 {
        NdcgWithinUnit(d, ids, relevant, cutoff);
      }
    } else {
      FlatFalls(Limit(cutoff, relevant));
      FlatOverflows(ids, relevant, cutoff);
    }
  }

  /** The value is 1 exactly when as many leading positions as the ideal counts are
      all relevant. */
  lemma NdcgPerfectIff(discount: Discount, ids: seq<Text>, relevant: set<Text>, cutoff: int)
    requires Discounts(discount) && Fits(ids, relevant, cutoff)
    requires relevant != {} && cutoff >= 1
    ensures Ndcg(discount, ids, relevant, cutoff) == 1.0 <==> Leading(ids, relevant, Limit(cutoff, relevant))
  {
    var limit := Limit(cutoff, relevant);
    var h := Hits(ids, relevant);
    assert limit > 0;
    DcgBound(discount, ids, relevant);
    IdealGrows(discount, h, limit);
    IdealGrows(discount, 0, limit);
    QuotientBound(Dcg(discount, ids, relevant), Ideal(discount, limit));
    if Leading(ids, relevant, limit) {
      HitsAtLeast(ids, relevant, limit);
    }
  }

  lemma {:induction false} LeadingGain(discount: Discount, ids: seq<Text>, relevant: set<Text>, k: nat)
    requires Discounts(discount) && Leading(ids, relevant, k)
    ensures Dcg(discount, ids, relevant) >= Ideal(discount, k)
  {
    if k > 0 {
      var last := |ids| - 1;
      if k < |ids| {
        LeadingGain(discount, ids[..last], relevant, k);
      } else {
        LeadingGain(discount, ids[..last], relevant, k - 1);
      }
    } else {
      DcgBound(discount, ids, relevant);
    }
  }

  /** With one leading hit more than the ideal counts, every discount exceeds 1. */
  lemma LeadingOverflows(discount: Discount, ids: seq<Text>, relevant: set<Text>, cutoff: int)
    requires Discounts(discount) && Limit(cutoff, relevant) > 0
    requires Leading(ids, relevant, Limit(cutoff, relevant) + 1)
    ensures Ndcg(discount, ids, relevant, cutoff) > 1.0
  {
    var limit := Limit(cutoff, relevant);
    LeadingGain(discount, ids, relevant, limit + 1);
    IdealGrows(discount, limit, limit + 1);
    IdealGrows(discount, 0, limit);
    QuotientBound(Dcg(discount, ids, relevant), Ideal(discount, limit));
  }

  /** Two relevant results and a cutoff of one: the loop over the results does not
      stop at the cutoff. */
  lemma BeyondTheCutoff(discount: Discount, a: Text, b: Text)
    requires Discounts(discount) && a != b
    ensures Ndcg(discount, [a, b], {a, b}, 1) > 1.0
  {
    assert |{a, b}| == 2;
    LeadingOverflows(discount, [a, b], {a, b}, 1);
  }

  /** The same item twice counts twice. */
  lemma DuplicatesOvercount(discount: Discount, a: Text)
    requires Discounts(discount)
    ensures Ndcg(discount, [a, a], {a}, 2) > 1.0
  {
    LeadingOverflows(discount, [a, a], {a}, 2);
  }

  lemma {:induction false} DcgOfOne(discount: Discount, ids: seq<Text>, id: Text, p: nat)
    requires Unique(ids) && p < |ids| && ids[p] == id
    ensures Dcg(discount, ids, {id}) == discount(p)
  {
    var last := |ids| - 1;
    if p < last {
      DcgOfOne(discount, ids[..last], id, p);
    } else {
      DcgOfNone(discount, ids[..last], id);
    }
  }

  lemma {:induction false} DcgOfNone(discount: Discount, ids: seq<Text>, id: Text)
    requires id !in ids
    ensures Dcg(discount, ids, {id}) == 0.0
  {
    if ids != [] {
      DcgOfNone(discount, ids[..|ids| - 1], id);
    }
  }

  /** With one relevant item the value is the discount of the position it was found at,
      as a share of the discount of the first position. */
  lemma SingleHitScores(discount: Discount, ids: seq<Text>, id: Text, p: nat, cutoff: int)
    requires Discounts(discount) && Unique(ids) && p < |ids| && ids[p] == id && cutoff >= 1
    ensures Ndcg(discount, ids, {id}, cutoff) == discount(p) / discount(0)
  {
    DcgOfOne(discount, ids, id, p);
    assert Limit(cutoff, {id}) == 1;
    assert Ideal(discount, 1) == Ideal(discount, 0) + discount(0) == discount(0);
  }

  method ComputeNdcg(discount: Discount, ids: seq<Text>, relevant: set<Text>, cutoff: int) returns (value: real)
    ensures value == Ndcg(discount, ids, relevant, cutoff)
  {
    var dcg := 0.0;
    for index := 0 to |ids|
      invariant dcg == Dcg(discount, ids[..index], relevant)
    {
      assert ids[..index + 1][..index] == ids[..index];
      if ids[index] in relevant {
        dcg := dcg + discount(index);
      }
    }
    assert ids[..|ids|] == ids;
    var ideal := 0.0;
    var limit := if cutoff <= |relevant| then cutoff else |relevant|;
    var index := 0;
    while index < limit
      invariant 0 <= index <= Limit(cutoff, relevant)
      invariant ideal == Ideal(discount, index)
    {
      ideal := ideal + discount(index);
      index := index + 1;
    }
    value := if ideal == 0.0 then 0.0 else dcg / ideal;
  }

  // ------------------------------------------------------------------ percentile

  function Ascending(): (real, real) -> bool {
    (a, b) => a < b
  }

  function Ceiling(x: real): int {
    -(-x).Floor
  }

  function RankOf(share: real): nat {
    var rank := Ceiling(share) - 1;
    if rank < 0 then 0 else rank
  }

  function Share(count: nat, quantile: real): real {
    quantile * (count as real)
  }

  function Rank(count: nat, quantile: real): nat {
    RankOf(Share(count, quantile))
  }

  /** The sample at the rank; none for no samples or past the last one. */
  function Percentile(values: seq<real>, quantile: real): Option<real> {
    var sorted := SortBy(values, Ascending());
    var rank := Rank(|values|, quantile);
    if values == [] || rank >= |sorted| then None else Some(sorted[rank])
  }

  function CountIf(values: seq<real>, p: real -> bool): nat {
    |Filter(values, p)|
  }

  function AtMost(bound: real): real -> bool {
    v => v <= bound
  }

  function Below(bound: real): real -> bool {
    v => v < bound
  }

  ghost predicate Rising(values: seq<real>) {
    forall i, j :: 0 <= i <= j < |values| ==> values[i] <= values[j]
  }

  lemma {:induction false} InsertRises(v: real, sorted: seq<real>)
    requires Rising(sorted)
    ensures Rising(Insert(v, sorted, Ascending()))
  {
    if sorted != [] && !(v < sorted[0]) {
      var rest := Insert(v, sorted[1..], Ascending());
      InsertRises(v, sorted[1..]);
      InsertCounts(v, sorted[1..], Ascending());
      hide Insert;
      forall i | 0 <= i < |rest| ensures sorted[0] <= rest[i] {
        assert rest[i] in multiset(rest);
        assert rest[i] == v || rest[i] in sorted[1..];
      }
      RisingCons(sorted[0], rest);
    }
  }

  lemma RisingCons(v: real, rest: seq<real>)
    requires Rising(rest) && forall i :: 0 <= i < |rest| ==> v <= rest[i]
    ensures Rising([v] + rest)
  {
  }

  lemma {:induction false} SortRises(values: seq<real>)
    ensures Rising(SortBy(values, Ascending()))
  {
    if values != [] {
      SortRises(values[1..]);
      InsertRises(values[0], SortBy(values[1..], Ascending()));
    }
  }

  lemma {:induction false} FilterPrefix(values: seq<real>, p: real -> bool, k: nat)
    requires k <= |values|
    ensures (forall i :: 0 <= i < k ==> p(values[i])) ==> CountIf(values, p) >= k
    ensures (forall i :: k <= i < |values| ==> !p(values[i])) ==> CountIf(values, p) <= k
    decreases |values|
  {
    if values != [] {
      if k > 0 {
        FilterPrefix(values[1..], p, k - 1);
      } else {
        FilterPrefix(values[1..], p, 0);
      }
    }
  }

  lemma CountRearranged(xs: seq<real>, ys: seq<real>, p: real -> bool)
    requires multiset(xs) == multiset(ys)
    ensures CountIf(xs, p) == CountIf(ys, p)
  {
    FilterRearranged(xs, ys, p);
    SameMembers(Filter(xs, p), Filter(ys, p));
  }

  lemma CeilingBounds(x: real)
    ensures (Ceiling(x) - 1) as real < x <= Ceiling(x) as real
  {
  }

  lemma ShareRank(share: real, count: nat)
    requires count > 0
    ensures share <= (RankOf(share) + 1) as real
    ensures if 0.0 < share then (RankOf(share) as real) < share else RankOf(share) == 0
    ensures RankOf(share) < count <==> share <= count as real
  {
    CeilingBounds(share);
    hide Ceiling;
  }

  lemma ShareSigns(count: nat, quantile: real)
    requires count > 0
    ensures 0.0 < quantile <==> 0.0 < Share(count, quantile)
    ensures quantile <= 1.0 <==> Share(count, quantile) <= count as real
  {
    Scale(quantile, count as real);
    if 0.0 < quantile {
      ProductPositive(quantile, count as real);
    }
  }

  lemma RankBounds(count: nat, quantile: real)
    requires count > 0
    ensures var rank, share := Rank(count, quantile), Share(count, quantile);
            && share <= (rank + 1) as real
            && (if 0.0 < quantile then (rank as real) < share else rank == 0)
            && (rank < count <==> quantile <= 1.0)
  {
    ShareSigns(count, quantile);
    hide RankOf, Share;
    ShareRank(Share(count, quantile), count);
  }

  /** The percentile is a sample; at least the asked share of the samples is at
      most it and less than that share is below it.  A quantile of zero or less asks
      for the least sample, one above 1 finds none. */
  lemma PercentileSplits(values: seq<real>, quantile: real)
    requires values != []
    ensures Percentile(values, quantile).Some? <==> quantile <= 1.0
    ensures quantile <= 1.0 ==>
              var cut := Percentile(values, quantile).value;
              var share := Share(|values|, quantile);
              && cut in values
              && CountIf(values, AtMost(cut)) as real >= share
              && if 0.0 < quantile then (CountIf(values, Below(cut)) as real) < share
                 else CountIf(values, Below(cut)) == 0
  {
    hide SortBy, CountIf, Rank, Share;
    var sorted := SortBy(values, Ascending());
    SortRises(values);
    SortBySorts(values, Ascending());
    SameMembers(sorted, values);
    RankBounds(|values|, quantile);
    if quantile <= 1.0 {
      var rank := Rank(|values|, quantile);
      SortedSplits(values, sorted, rank);
      ShareSplits(CountIf(values, AtMost(sorted[rank])), CountIf(values, Below(sorted[rank])), rank,
                  Share(|values|, quantile), 0.0 < quantile);
    }
  }

  lemma ShareSplits(atMost: nat, below: nat, rank: nat, share: real, positive: bool)
    requires atMost >= rank + 1 && below <= rank && share <= (rank + 1) as real
    requires if positive then (rank as real) < share else rank == 0
    ensures atMost as real >= share && if positive then (below as real) < share else below == 0
  {
  }

  lemma SortedSplits(values: seq<real>, sorted: seq<real>, rank: nat)
    requires Rising(sorted) && multiset(sorted) == multiset(values) && rank < |sorted|
    ensures CountIf(values, AtMost(sorted[rank])) >= rank + 1
    ensures CountIf(values, Below(sorted[rank])) <= rank
  {
    hide CountIf;
    var cut := sorted[rank];
    FilterPrefix(sorted, AtMost(cut), rank + 1);
    FilterPrefix(sorted, Below(cut), rank);
    CountRearranged(sorted, values, AtMost(cut));
    CountRearranged(sorted, values, Below(cut));
  }
}
