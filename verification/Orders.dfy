/**
 Sorting, selecting and filtering by a strict order, and why none of them
 depends on the order in which their input is listed.
 */
module Orders {
  import opened Wrappers

  // ------------------------------------------------------------ map and filter

  function Map<S, T>(f: S -> T, xs: seq<S>): (ys: seq<T>)
    ensures |ys| == |xs| && forall i :: 0 <= i < |xs| ==> ys[i] == f(xs[i])
  {
    seq(|xs|, i requires 0 <= i < |xs| => f(xs[i]))
  }

  function Filter<T>(xs: seq<T>, p: T -> bool): seq<T> {
    if xs == [] then []
    else if p(xs[0]) then [xs[0]] + Filter(xs[1..], p)
    else Filter(xs[1..], p)
  }

  lemma {:induction false} FilterMembers<T(!new)>(xs: seq<T>, p: T -> bool)
    ensures forall x :: x in Filter(xs, p) <==> x in xs && p(x)
    ensures |Filter(xs, p)| <= |xs|
  {
    if xs != [] {
      FilterMembers(xs[1..], p);
      assert xs == [xs[0]] + xs[1..];
    }
  }

  lemma {:induction false} FilterCounts<T(!new)>(xs: seq<T>, p: T -> bool)
    ensures forall x :: multiset(Filter(xs, p))[x] == if p(x) then multiset(xs)[x] else 0
  {
    if xs != [] {
      FilterCounts(xs[1..], p);
      assert xs == [xs[0]] + xs[1..];
    }
  }

  /** Filtering a rearranged sequence rearranges the result. */
  lemma FilterRearranged<T(!new)>(xs: seq<T>, ys: seq<T>, p: T -> bool)
    requires multiset(xs) == multiset(ys)
    ensures multiset(Filter(xs, p)) == multiset(Filter(ys, p))
  {
    FilterCounts(xs, p);
    FilterCounts(ys, p);
    assert forall x :: multiset(Filter(xs, p))[x] == multiset(Filter(ys, p))[x];
  }

  lemma SameMembers<T(!new)>(xs: seq<T>, ys: seq<T>)
    requires multiset(xs) == multiset(ys)
    ensures forall x :: x in xs <==> x in ys
    ensures |xs| == |ys|
  {
    forall x ensures x in xs <==> x in ys {
      assert x in xs <==> x in multiset(xs);
    }
    assert |multiset(xs)| == |xs| && |multiset(ys)| == |ys|;
  }

  /** Images under `g` are rearranged whenever images under `f` are and `f`
      determines `g`. */
  lemma {:induction false} ImagesRearranged<S(!new), A(!new), B(!new)>(f: S -> A, g: S -> B, xs: seq<S>, ys: seq<S>)
    requires multiset(Map(f, xs)) == multiset(Map(f, ys))
    requires forall x, y :: f(x) == f(y) ==> g(x) == g(y)
    ensures multiset(Map(g, xs)) == multiset(Map(g, ys))
    decreases |xs|
  {
    if xs == [] {
      SameMembers(Map(f, xs), Map(f, ys));
    } else {
      var k := Counterpart(f, xs, ys);
      hide Map;
      RemoveAt(f, ys, k);
      RemoveAt(g, ys, k);
      RemoveFirst(f, xs);
      RemoveFirst(g, xs);
      assert multiset(Map(f, xs[1..])) == multiset(Map(f, xs)) - multiset{f(xs[0])};
      assert multiset(Map(f, ys[..k] + ys[k + 1..])) == multiset(Map(f, ys)) - multiset{f(xs[0])};
      ImagesRearranged(f, g, xs[1..], ys[..k] + ys[k + 1..]);
    }
  }

  lemma Counterpart<S(!new), A(!new)>(f: S -> A, xs: seq<S>, ys: seq<S>) returns (k: nat)
    requires xs != [] && multiset(Map(f, xs)) == multiset(Map(f, ys))
    ensures k < |ys| && f(ys[k]) == f(xs[0])
  {
    SameMembers(Map(f, xs), Map(f, ys));
    assert Map(f, xs)[0] in Map(f, ys);
    k := Preimage(f, xs[0], ys);
  }

  lemma RemoveFirst<S(!new), A(!new)>(f: S -> A, xs: seq<S>)
    requires xs != []
    ensures multiset(Map(f, xs)) == multiset(Map(f, xs[1..])) + multiset{f(xs[0])}
  {
    RemoveAt(f, xs, 0);
    assert xs[..0] + xs[1..] == xs[1..];
  }

  lemma Preimage<S(!new), A(!new)>(f: S -> A, x: S, ys: seq<S>) returns (k: nat)
    requires exists i :: 0 <= i < |ys| && Map(f, ys)[i] == f(x)
    ensures k < |ys| && f(ys[k]) == f(x)
  {
    k :| 0 <= k < |ys| && Map(f, ys)[k] == f(x);
  }

  lemma RemoveAt<S(!new), A(!new)>(f: S -> A, xs: seq<S>, k: nat)
    requires k < |xs|
    ensures multiset(Map(f, xs)) == multiset(Map(f, xs[..k] + xs[k + 1..])) + multiset{f(xs[k])}
  {
    var m := Map(f, xs);
    assert m == m[..k] + [m[k]] + m[k + 1..];
    assert Map(f, xs[..k] + xs[k + 1..]) == m[..k] + m[k + 1..];
  }

  // ------------------------------------------------------------------ reversal

  function Reverse<T>(xs: seq<T>): (ys: seq<T>)
    ensures |ys| == |xs| && forall i :: 0 <= i < |ys| ==> ys[i] == xs[|xs| - 1 - i]
  {
    seq(|xs|, i requires 0 <= i < |xs| => xs[|xs| - 1 - i])
  }

  lemma {:induction false} ReverseCounts<T>(xs: seq<T>)
    ensures multiset(Reverse(xs)) == multiset(xs)
    decreases |xs|
  {
    if xs == [] {
      assert Reverse(xs) == [];
    } else {
      assert Reverse(xs) == Reverse(xs[1..]) + [xs[0]];
      ReverseCounts(xs[1..]);
      assert xs == [xs[0]] + xs[1..];
    }
  }

  // -------------------------------------------------------------------- orders

  ghost predicate StrictOrder<T(!new)>(before: (T, T) -> bool) {
    && (forall x :: !before(x, x))
    && (forall x, y, z :: before(x, y) && before(y, z) ==> before(x, z))
  }

  /** Any two elements at different places are ordered one way or the other. */
  ghost predicate TotalOn<T(!new)>(before: (T, T) -> bool, xs: seq<T>) {
    forall i, j :: 0 <= i < j < |xs| ==> before(xs[i], xs[j]) || before(xs[j], xs[i])
  }

  ghost predicate SortedBy<T(!new)>(before: (T, T) -> bool, xs: seq<T>) {
    forall i, j :: 0 <= i < j < |xs| ==> before(xs[i], xs[j])
  }

  /** The first element of the sorted sequence, that is, the first one that
      nothing precedes. */
  function Best<T>(xs: seq<T>, before: (T, T) -> bool): Option<T> {
    if xs == [] then None
    else
      var n := |xs| - 1;
      var b := Best(xs[..n], before);
      if b.None? || before(xs[n], b.value) then Some(xs[n]) else b
  }

  lemma {:induction false} BestIsFirst<T(!new)>(xs: seq<T>, before: (T, T) -> bool)
    requires StrictOrder(before)
    ensures xs == [] <==> Best(xs, before).None?
    ensures Best(xs, before).Some? ==>
              Best(xs, before).value in xs && forall x :: x in xs ==> !before(x, Best(xs, before).value)
  {
    if xs != [] {
      var n := |xs| - 1;
      BestIsFirst(xs[..n], before);
      assert xs == xs[..n] + [xs[n]];
    }
  }

  lemma BestUnique<T(!new)>(xs: seq<T>, ys: seq<T>, before: (T, T) -> bool)
    requires StrictOrder(before) && multiset(xs) == multiset(ys) && TotalOn(before, xs)
    ensures Best(xs, before) == Best(ys, before)
  {
    BestIsFirst(xs, before);
    BestIsFirst(ys, before);
    SameMembers(xs, ys);
    if xs != [] {
      var a, b := Best(xs, before).value, Best(ys, before).value;
      assert a in xs && b in xs;
      var i :| 0 <= i < |xs| && xs[i] == a;
      var j :| 0 <= j < |xs| && xs[j] == b;
      assert !before(a, b) && !before(b, a);
    }
  }

  function Insert<T>(x: T, sorted: seq<T>, before: (T, T) -> bool): seq<T> {
    if sorted == [] then [x]
    else if before(x, sorted[0]) then [x] + sorted
    else [sorted[0]] + Insert(x, sorted[1..], before)
  }

  function SortBy<T>(xs: seq<T>, before: (T, T) -> bool): seq<T> {
    if xs == [] then [] else Insert(xs[0], SortBy(xs[1..], before), before)
  }

  lemma {:induction false} InsertCounts<T(!new)>(x: T, sorted: seq<T>, before: (T, T) -> bool)
    ensures multiset(Insert(x, sorted, before)) == multiset(sorted) + multiset{x}
  {
    if sorted != [] && !before(x, sorted[0]) {
      InsertCounts(x, sorted[1..], before);
      assert sorted == [sorted[0]] + sorted[1..];
    }
  }

  lemma {:induction false} InsertSorts<T(!new)>(x: T, sorted: seq<T>, before: (T, T) -> bool)
    requires StrictOrder(before) && SortedBy(before, sorted)
    requires forall y :: y in sorted ==> before(x, y) || before(y, x)
    ensures SortedBy(before, Insert(x, sorted, before))
  {
    if sorted != [] {
      if before(x, sorted[0]) {
        assert forall i :: 0 < i < |sorted| ==> before(sorted[0], sorted[i]);
      } else {
        var rest := Insert(x, sorted[1..], before);
        InsertSorts(x, sorted[1..], before);
        InsertCounts(x, sorted[1..], before);
        forall i | 0 <= i < |rest| ensures before(sorted[0], rest[i])
        {
          assert rest[i] in multiset(rest);
          assert rest[i] == x || rest[i] in sorted[1..];
          assert sorted[0] in sorted;
        }
      }
    }
  }

  /** Sorting rearranges, and leaves the result in order. */
  lemma {:induction false} SortBySorts<T(!new)>(xs: seq<T>, before: (T, T) -> bool)
    requires StrictOrder(before)
    ensures multiset(SortBy(xs, before)) == multiset(xs)
    ensures TotalOn(before, xs) ==> SortedBy(before, SortBy(xs, before))
  {
    if xs != [] {
      var rest := SortBy(xs[1..], before);
      SortBySorts(xs[1..], before);
      assert xs == [xs[0]] + xs[1..];
      InsertCounts(xs[0], rest, before);
      if TotalOn(before, xs) {
        forall i, j | 0 <= i < j < |xs[1..]| ensures before(xs[1..][i], xs[1..][j]) || before(xs[1..][j], xs[1..][i])
        {
          assert xs[1..][i] == xs[i + 1] && xs[1..][j] == xs[j + 1];
        }
        SameMembers(rest, xs[1..]);
        InsertSorts(xs[0], rest, before);
      }
    }
  }

  /** Elements that are tied may stand either way round, and being tied carries over. */
  ghost predicate WeakOrder<T(!new)>(before: (T, T) -> bool) {
    StrictOrder(before) && forall x, y, z :: !before(x, y) && !before(y, z) ==> !before(x, z)
  }

  /** No element comes after one that it precedes. */
  ghost predicate RankedBy<T(!new)>(before: (T, T) -> bool, xs: seq<T>) {
    forall i, j :: 0 <= i < j < |xs| ==> !before(xs[j], xs[i])
  }

  lemma {:induction false} InsertRanks<T(!new)>(x: T, sorted: seq<T>, before: (T, T) -> bool)
    requires WeakOrder(before) && RankedBy(before, sorted)
    ensures RankedBy(before, Insert(x, sorted, before))
  {
    if sorted != [] {
      if before(x, sorted[0]) {
        forall i | 0 <= i < |sorted| ensures !before(sorted[i], x) {
          assert i > 0 ==> !before(sorted[i], sorted[0]);
        }
      } else {
        var rest := Insert(x, sorted[1..], before);
        InsertRanks(x, sorted[1..], before);
        InsertCounts(x, sorted[1..], before);
        forall i | 0 <= i < |rest| ensures !before(rest[i], sorted[0]) {
          assert rest[i] in multiset(rest);
          assert rest[i] == x || rest[i] in sorted[1..];
        }
        RankedCons(sorted[0], rest, before);
      }
    }
  }

  lemma RankedCons<T(!new)>(x: T, rest: seq<T>, before: (T, T) -> bool)
    requires RankedBy(before, rest) && forall i :: 0 <= i < |rest| ==> !before(rest[i], x)
    ensures RankedBy(before, [x] + rest)
  {
  }

  lemma {:induction false} SortByRanks<T(!new)>(xs: seq<T>, before: (T, T) -> bool)
    requires WeakOrder(before)
    ensures RankedBy(before, SortBy(xs, before))
  {
    if xs != [] {
      SortByRanks(xs[1..], before);
      InsertRanks(xs[0], SortBy(xs[1..], before), before);
    }
  }

  lemma SortedRanks<T(!new)>(xs: seq<T>, before: (T, T) -> bool)
    requires StrictOrder(before) && SortedBy(before, xs)
    ensures RankedBy(before, xs)
  {
    forall i, j | 0 <= i < j < |xs| ensures !before(xs[j], xs[i]) {
      assert before(xs[i], xs[j]);
    }
  }

  /** The front of a ranked sequence is ranked, and nothing after it precedes any of it. */
  lemma RankedSplit<T(!new)>(front: seq<T>, rest: seq<T>, before: (T, T) -> bool)
    requires RankedBy(before, front + rest)
    ensures RankedBy(before, front)
    ensures forall c, e :: c in front && e in rest ==> !before(e, c)
    ensures multiset(front + rest) - multiset(front) == multiset(rest)
  {
    var xs := front + rest;
    forall c, e | c in front && e in rest ensures !before(e, c) {
      var i :| 0 <= i < |front| && front[i] == c;
      var j :| 0 <= j < |rest| && rest[j] == e;
      assert xs[i] == c && xs[|front| + j] == e;
    }
    forall i, j | 0 <= i < j < |front| ensures !before(front[j], front[i]) {
      assert xs[i] == front[i] && xs[j] == front[j];
    }
  }

  /** Where two sequences part, what the one has next is missing from the other, or
      still to come there. */
  lemma NextIsLeft<T(!new)>(all: multiset<T>, x: seq<T>, y: seq<T>, i: nat)
    requires i < |x| && i < |y| && x[..i] == y[..i] && multiset(y) <= all
    ensures y[i] in x[i..] || y[i] in all - multiset(x)
  {
    var d := y[i];
    assert x == x[..i] + x[i..];
    assert y == y[..i] + [d] + y[i + 1..];
    if d !in x[i..] {
      assert multiset(x[i..])[d] == 0;
      assert multiset(x)[d] == multiset(x[..i])[d] < multiset(y)[d] <= all[d];
    }
  }

  /** Sorted rearrangements begin alike. */
  lemma SortedHeads<T(!new)>(xs: seq<T>, ys: seq<T>, before: (T, T) -> bool)
    requires StrictOrder(before) && SortedBy(before, xs) && SortedBy(before, ys) && multiset(xs) == multiset(ys)
    ensures |xs| == |ys|
    ensures xs != [] ==> xs[0] == ys[0]
  {
    SameMembers(xs, ys);
    if xs != [] {
      assert xs[0] in ys && ys[0] in xs;
    }
  }

  lemma TailCounts<T(!new)>(xs: seq<T>)
    requires xs != []
    ensures xs == [xs[0]] + xs[1..]
    ensures multiset(xs[1..]) == multiset(xs) - multiset{xs[0]}
  {
    assert xs == [xs[0]] + xs[1..];
  }

  lemma {:induction false} SortedUnique<T(!new)>(xs: seq<T>, ys: seq<T>, before: (T, T) -> bool)
    requires StrictOrder(before) && SortedBy(before, xs) && SortedBy(before, ys) && multiset(xs) == multiset(ys)
    ensures xs == ys
  {
    SortedHeads(xs, ys, before);
    if xs != [] {
      TailCounts(xs);
      TailCounts(ys);
      assert SortedBy(before, xs[1..]) && SortedBy(before, ys[1..]);
      hide SortedBy, StrictOrder;
      SortedUnique(xs[1..], ys[1..], before);
    }
  }

  lemma HeadMember<T>(xs: seq<T>)
    ensures |xs| > 0 ==> xs[0] in xs
  {
  }

  lemma HeadFirst<T(!new)>(xs: seq<T>, before: (T, T) -> bool, x: T)
    requires SortedBy(before, xs) && x in xs
    ensures x == xs[0] || before(xs[0], x)
  {
  }

  lemma SortedTail<T(!new)>(xs: seq<T>, before: (T, T) -> bool)
    requires StrictOrder(before) && SortedBy(before, xs) && xs != []
    ensures SortedBy(before, xs[1..])
    ensures forall x :: x in xs[1..] <==> x in xs && x != xs[0]
  {
    forall x ensures x in xs[1..] <==> x in xs && x != xs[0] {
      if x in xs[1..] {
        var i :| 0 < i < |xs| && xs[i] == x;
        assert before(xs[0], xs[i]);
      }
    }
  }

  /** A sorted sequence is determined by its members. */
  lemma {:induction false} SortedMembersUnique<T(!new)>(xs: seq<T>, ys: seq<T>, before: (T, T) -> bool)
    requires StrictOrder(before) && SortedBy(before, xs) && SortedBy(before, ys)
    requires forall x :: x in xs <==> x in ys
    ensures xs == ys
    decreases |xs|
  {
    HeadMember(xs);
    HeadMember(ys);
    if xs != [] {
      HeadFirst(ys, before, xs[0]);
      HeadFirst(xs, before, ys[0]);
      SortedTail(xs, before);
      SortedTail(ys, before);
      SortedMembersUnique(xs[1..], ys[1..], before);
    }
  }

  /** A rearranged sequence sorts to the same result. */
  lemma SortByRearranged<T(!new)>(xs: seq<T>, ys: seq<T>, before: (T, T) -> bool)
    requires StrictOrder(before) && TotalOn(before, xs) && TotalOn(before, ys) && multiset(xs) == multiset(ys)
    ensures SortBy(xs, before) == SortBy(ys, before)
  {
    SortBySorts(xs, before);
    SortBySorts(ys, before);
    SortedUnique(SortBy(xs, before), SortBy(ys, before), before);
  }

  // ------------------------------------------------------------- distinct keys

  ghost predicate DistinctBy<T(!new), K(!new)>(key: T -> K, xs: seq<T>) {
    forall i, j :: 0 <= i < j < |xs| ==> key(xs[i]) != key(xs[j])
  }

  lemma SamePlace<T(!new), K(!new)>(key: T -> K, xs: seq<T>, i: nat, j: nat)
    requires DistinctBy(key, xs) && i < |xs| && j < |xs| && key(xs[i]) == key(xs[j])
    ensures i == j
  {
  }

  lemma DistinctRearranged<T(!new), K(!new)>(key: T -> K, xs: seq<T>, ys: seq<T>)
    requires multiset(xs) == multiset(ys) && DistinctBy(key, xs)
    ensures DistinctBy(key, ys)
  {
    SameMembers(xs, ys);
    forall i, j | 0 <= i < j < |ys| ensures key(ys[i]) != key(ys[j])
    {
      assert ys[i] in xs && ys[j] in xs;
      var p :| 0 <= p < |xs| && xs[p] == ys[i];
      var q :| 0 <= q < |xs| && xs[q] == ys[j];
      if p == q {
        Twice(ys, i, j);
        Once(key, xs, p);
        assert false;
      }
    }
  }

  lemma Twice<T(!new)>(xs: seq<T>, i: nat, j: nat)
    requires i < j < |xs| && xs[i] == xs[j]
    ensures multiset(xs)[xs[i]] >= 2
  {
    assert xs == xs[..j] + [xs[j]] + xs[j + 1..];
    assert xs[i] in xs[..j];
  }

  lemma Once<T(!new), K(!new)>(key: T -> K, xs: seq<T>, p: nat)
    requires p < |xs| && DistinctBy(key, xs)
    ensures multiset(xs)[xs[p]] == 1
  {
    assert xs == xs[..p] + [xs[p]] + xs[p + 1..];
    assert xs[p] !in xs[..p] && xs[p] !in xs[p + 1..];
  }

  lemma {:induction false} FilterDistinct<T(!new), K(!new)>(key: T -> K, xs: seq<T>, p: T -> bool)
    requires DistinctBy(key, xs)
    ensures DistinctBy(key, Filter(xs, p))
  {
    if xs != [] {
      FilterDistinct(key, xs[1..], p);
      FilterMembers(xs[1..], p);
      var rest := Filter(xs[1..], p);
      forall i | 0 <= i < |rest| ensures key(rest[i]) != key(xs[0])
      {
        assert rest[i] in xs[1..];
      }
    }
  }
}
