/** Ranking by scores with ties broken by an identifier, and maxima of scores. */
module Scores {
  import opened Wrappers
  import opened Texts
  import opened Orders

  /** Higher first score first, then higher second score, then the smaller id. */
  function ByScores<T>(first: T -> real, second: T -> real, id: T -> Text): (T, T) -> bool {
    (a, b) =>
      first(a) > first(b)
      || (first(a) == first(b) && (second(a) > second(b) || (second(a) == second(b) && Less(id(a), id(b)))))
  }

  function Zero<T>(): T -> real {
    _ => 0.0
  }

  function ByScore<T>(score: T -> real, id: T -> Text): (T, T) -> bool {
    ByScores(score, Zero(), id)
  }

  function ById<T>(id: T -> Text): (T, T) -> bool {
    ByScores(Zero(), Zero(), id)
  }

  function Itself(): Text -> Text {
    t => t
  }

  lemma ByScoresStrict<T(!new)>(first: T -> real, second: T -> real, id: T -> Text)
    ensures StrictOrder(ByScores(first, second, id))
  {
    var before := ByScores(first, second, id);
    forall x ensures !before(x, x) {
      LessIrreflexive(id(x));
    }
    forall x, y, z | before(x, y) && before(y, z) ensures before(x, z) {
      if Less(id(x), id(y)) && Less(id(y), id(z)) {
        LessTransitive(id(x), id(y), id(z));
      }
    }
  }

  lemma ByScoresTotal<T(!new)>(first: T -> real, second: T -> real, id: T -> Text, xs: seq<T>)
    requires DistinctBy(id, xs)
    ensures TotalOn(ByScores(first, second, id), xs)
  {
    var before := ByScores(first, second, id);
    forall i, j | 0 <= i < j < |xs| ensures before(xs[i], xs[j]) || before(xs[j], xs[i]) {
      LessTotal(id(xs[i]), id(xs[j]));
    }
  }

  /** The best-ranked element is the same however the sequence is listed. */
  lemma BestRearranged<T(!new)>(first: T -> real, second: T -> real, id: T -> Text, xs: seq<T>, ys: seq<T>)
    requires multiset(xs) == multiset(ys) && DistinctBy(id, xs)
    ensures Best(xs, ByScores(first, second, id)) == Best(ys, ByScores(first, second, id))
  {
    ByScoresStrict(first, second, id);
    ByScoresTotal(first, second, id, xs);
    BestUnique(xs, ys, ByScores(first, second, id));
  }

  /** A ranking is the same however the sequence is listed. */
  lemma RankingRearranged<T(!new)>(first: T -> real, second: T -> real, id: T -> Text, xs: seq<T>, ys: seq<T>)
    requires multiset(xs) == multiset(ys) && DistinctBy(id, xs)
    ensures SortBy(xs, ByScores(first, second, id)) == SortBy(ys, ByScores(first, second, id))
  {
    ByScoresStrict(first, second, id);
    ByScoresTotal(first, second, id, xs);
    DistinctRearranged(id, xs, ys);
    ByScoresTotal(first, second, id, ys);
    SortByRearranged(xs, ys, ByScores(first, second, id));
  }

  // ---------------------------------------------------------- without repeats

  /** The first occurrence of every text. */
  function Distinct(values: seq<Text>): seq<Text> {
    if values == [] then []
    else
      var last := |values| - 1;
      var before := Distinct(values[..last]);
      if values[last] in before then before else before + [values[last]]
  }

  lemma {:induction false} DistinctKeepsMembers(values: seq<Text>)
    ensures DistinctBy(Itself(), Distinct(values))
    ensures forall t :: t in Distinct(values) <==> t in values
    ensures DistinctBy(Itself(), values) ==> Distinct(values) == values
  {
    if values != [] {
      var last := |values| - 1;
      DistinctKeepsMembers(values[..last]);
      assert values == values[..last] + [values[last]];
      if DistinctBy(Itself(), values) {
        forall i | 0 <= i < last ensures values[i] != values[last] {
          assert Itself()(values[i]) != Itself()(values[last]);
        }
        forall i, j | 0 <= i < j < last ensures Itself()(values[..last][i]) != Itself()(values[..last][j]) {
          assert Itself()(values[i]) != Itself()(values[j]);
        }
      }
    }
  }

  // -------------------------------------------------------------------- maxima

  function Max(a: real, b: real): real {
    if a >= b then a else b
  }

  function Min(a: real, b: real): real {
    if a <= b then a else b
  }

  /** The largest score, or zero. */
  function MaxOf<T>(xs: seq<T>, f: T -> real): real {
    if xs == [] then 0.0 else Max(MaxOf(xs[..|xs| - 1], f), f(xs[|xs| - 1]))
  }

  lemma {:induction false} MaxOfIsLargest<T(!new)>(xs: seq<T>, f: T -> real)
    ensures MaxOf(xs, f) >= 0.0
    ensures forall x :: x in xs ==> f(x) <= MaxOf(xs, f)
    ensures MaxOf(xs, f) == 0.0 || exists x :: x in xs && f(x) == MaxOf(xs, f)
  {
    if xs != [] {
      var n := |xs| - 1;
      MaxOfIsLargest(xs[..n], f);
      assert xs == xs[..n] + [xs[n]];
    }
  }

  /** Only the members count, not their order or number. */
  lemma MaxOfMembers<T(!new)>(xs: seq<T>, ys: seq<T>, f: T -> real)
    requires forall x :: x in xs ==> x in ys
    ensures MaxOf(xs, f) <= MaxOf(ys, f)
  {
    MaxOfIsLargest(xs, f);
    MaxOfIsLargest(ys, f);
  }

  lemma MaxOfAppend<T(!new)>(xs: seq<T>, x: T, f: T -> real)
    ensures MaxOf(xs + [x], f) == Max(MaxOf(xs, f), f(x))
  {
    assert (xs + [x])[..|xs|] == xs;
  }
}
