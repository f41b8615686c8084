/**
 What equal canonical texts say about the values they were printed from, and what
 the sorted-and-unique check accepts.
 */
module ContractValidation {
  import opened Texts
  import opened Orders
  import opened Scores
  import opened CanonicalJson

  /** No object lists a key twice, at any depth. */
  ghost predicate Record(v: Json)
    decreases v
  {
    match v
    case Arr(items) => forall i :: 0 <= i < |items| ==> Record(items[i])
    case Obj(members) =>
      && DistinctBy(Key(), members)
      && forall i :: 0 <= i < |members| ==> Record(members[i].value)
    case _ => true
  }

  predicate Defined(m: Member) {
    !m.value.Undefined?
  }

  /**
   The same value up to the order of members and to undefined members.  When
   `lax`, undefined and null are also the same wherever a value stands.
   */
  ghost predicate Same(v: Json, w: Json, lax: bool)
    decreases v
  {
    match v
    case Undefined => w.Undefined? || (lax && w.Null?)
    case Null => w.Null? || (lax && w.Undefined?)
    case Arr(items) =>
      && w.Arr?
      && |items| == |w.items|
      && forall i :: 0 <= i < |items| ==> Same(items[i], w.items[i], lax)
    case Obj(members) =>
      && w.Obj?
      && (forall i :: 0 <= i < |members| && Defined(members[i]) ==>
            exists j :: 0 <= j < |w.members| && SameMember(members[i], w.members[j], lax))
      && (forall j :: 0 <= j < |w.members| && Defined(w.members[j]) ==>
            exists i :: 0 <= i < |members| && Defined(members[i]) && members[i].key == w.members[j].key)
    case _ => v == w
  }

  ghost predicate SameMember(m: Member, n: Member, lax: bool)
    decreases m
  {
    m.key == n.key && Defined(n) && Same(m.value, n.value, lax)
  }

  // ------------------------------------------------- normal forms, member by member

  lemma {:induction false} NormalItemAt(items: seq<Json>, i: nat)
    requires i < |items|
    ensures NormalItems(items)[i] == Normal(items[i])
  {
    if i > 0 {
      NormalItemAt(items[1..], i - 1);
    }
  }

  /** The normal members are those of the defined members. */
  lemma {:induction false} NormalMemberIn(members: seq<Member>, x: Member)
    ensures x in NormalMembers(members)
            <==> exists i :: 0 <= i < |members| && Defined(members[i]) && NormalMember(members[i]) == x
  {
    if members != [] {
      NormalMemberIn(members[1..], x);
      assert forall i :: 0 <= i < |members[1..]| ==> members[1..][i] == members[i + 1];
      if i :| 0 <= i < |members| && Defined(members[i]) && NormalMember(members[i]) == x {
        if i > 0 {
          assert members[1..][i - 1] == members[i];
        }
      }
    }
  }

  lemma {:induction false} NormalKeysDistinct(members: seq<Member>)
    requires DistinctBy(Key(), members)
    ensures DistinctBy(Key(), NormalMembers(members))
  {
    if members != [] {
      NormalKeysDistinct(members[1..]);
      var rest := NormalMembers(members[1..]);
      forall k | 0 <= k < |rest| ensures Key()(rest[k]) != members[0].key {
        NormalMemberIn(members[1..], rest[k]);
        var i :| 0 <= i < |members[1..]| && NormalMember(members[1..][i]) == rest[k];
        assert members[1..][i] == members[i + 1];
        assert Key()(members[0]) != Key()(members[i + 1]);
      }
    }
  }

  /** Sequences without repeated keys that have the same elements are
      rearrangements of each other. */
  lemma SameElements(xs: seq<Member>, ys: seq<Member>)
    requires DistinctBy(Key(), xs) && DistinctBy(Key(), ys)
    requires forall x :: x in xs <==> x in ys
    ensures multiset(xs) == multiset(ys)
  {
    forall x ensures multiset(xs)[x] == multiset(ys)[x] {
      CountOf(xs, x);
      CountOf(ys, x);
    }
  }

  lemma CountOf(xs: seq<Member>, x: Member)
    requires DistinctBy(Key(), xs)
    ensures multiset(xs)[x] == if x in xs then 1 else 0
  {
    if x in xs {
      var p :| 0 <= p < |xs| && xs[p] == x;
      Once(Key(), xs, p);
    }
  }

  lemma SortedAlike(xs: seq<Member>, ys: seq<Member>)
    requires DistinctBy(Key(), xs) && DistinctBy(Key(), ys)
    ensures SortBy(xs, ById(Key())) == SortBy(ys, ById(Key())) <==> forall x :: x in xs <==> x in ys
  {
    hide SortBy, DistinctBy;
    SortBySame(xs);
    SortBySame(ys);
    if forall x :: x in xs <==> x in ys {
      SameElements(xs, ys);
      RankingRearranged(Zero<Member>(), Zero<Member>(), Key(), xs, ys);
    }
  }

  lemma ObjectNormal(ms: seq<Member>)
    ensures Normal(Obj(ms)) == Obj(SortBy(NormalMembers(ms), ById(Key())))
  {
  }

  /** Objects have the same normal form exactly when their normal members have
      the same elements. */
  lemma NormalObjectsEqual(ms: seq<Member>, ns: seq<Member>)
    requires DistinctBy(Key(), ms) && DistinctBy(Key(), ns)
    ensures Normal(Obj(ms)) == Normal(Obj(ns))
            <==> forall x :: x in NormalMembers(ms) <==> x in NormalMembers(ns)
  {
    hide Normal, NormalMembers, SortBy, DistinctBy;
    ObjectNormal(ms);
    ObjectNormal(ns);
    NormalKeysDistinct(ms);
    NormalKeysDistinct(ns);
    SortedAlike(NormalMembers(ms), NormalMembers(ns));
  }

  // ------------------------------------------------------ the order of the members

  /** The members of every object stand in strictly rising order of their keys. */
  ghost predicate Ordered(v: Json)
    decreases v
  {
    match v
    case Arr(items) => forall i :: 0 <= i < |items| ==> Ordered(items[i])
    case Obj(members) =>
      && (forall i, j :: 0 <= i < j < |members| ==> Less(members[i].key, members[j].key))
      && forall i :: 0 <= i < |members| ==> Ordered(members[i].value)
    case _ => true
  }

  lemma KeysRise(members: seq<Member>)
    requires DistinctBy(Key(), members)
    ensures var sorted := SortBy(members, ById(Key()));
            forall i, j :: 0 <= i < j < |sorted| ==> Less(sorted[i].key, sorted[j].key)
  {
    var before := ById(Key());
    ByScoresStrict(Zero<Member>(), Zero<Member>(), Key());
    ByScoresTotal(Zero<Member>(), Zero<Member>(), Key(), members);
    SortBySorts(members, before);
    var sorted := SortBy(members, before);
    hide SortBy;
    forall i, j | 0 <= i < j < |sorted| ensures Less(sorted[i].key, sorted[j].key) {
      assert before(sorted[i], sorted[j]);
    }
  }

  lemma {:induction false} NormalOrdered(v: Json)
    requires Record(v)
    ensures Ordered(Normal(v))
    decreases v
  {
    match v
    case Arr(items) =>
      forall i | 0 <= i < |items| ensures Ordered(NormalItems(items)[i]) {
        NormalItemAt(items, i);
        NormalOrdered(items[i]);
      }
    case Obj(members) =>
      ObjectNormal(members);
      NormalKeysDistinct(members);
      KeysRise(NormalMembers(members));
      SortBySame(NormalMembers(members));
      var sorted := SortBy(NormalMembers(members), ById(Key()));
      forall k | 0 <= k < |sorted| ensures Ordered(sorted[k].value) {
        assert sorted[k] in NormalMembers(members);
        NormalMemberIn(members, sorted[k]);
        var i :| 0 <= i < |members| && Defined(members[i]) && NormalMember(members[i]) == sorted[k];
        NormalOrdered(members[i].value);
      }
    case _ =>
  }

  /** What is printed lists the members of every object in order: the parser reads
      back a value whose keys rise at every level. */
  lemma PrintedInOrder(numbers: Numbers, v: Json, rest: Text)
    requires NumbersValid(numbers) && Stops(rest) && Record(v)
    ensures var parsed := ParseValue(numbers, Print(numbers, v) + rest);
            parsed.Some? && parsed.value.rest == rest && Ordered(parsed.value.value)
  {
    ParseRecovers(numbers, v, rest);
    NormalOrdered(v);
  }

  // ------------------------------------------------- same values print alike

  lemma {:induction false} SameArrays(xs: seq<Json>, ys: seq<Json>)
    requires |xs| == |ys| ==> forall i :: 0 <= i < |xs| ==> (Normal(xs[i]) == Normal(ys[i]) <==> Same(xs[i], ys[i], true))
    ensures Normal(Arr(xs)) == Normal(Arr(ys)) <==> Same(Arr(xs), Arr(ys), true)
  {
    hide Normal, Same;
    ArraySame(xs, ys);
    ArrayNormal(xs);
    ArrayNormal(ys);
    if |xs| == |ys| {
      forall i | 0 <= i < |xs|
        ensures NormalItems(xs)[i] == Normal(xs[i]) && NormalItems(ys)[i] == Normal(ys[i])
      {
        NormalItemAt(xs, i);
        NormalItemAt(ys, i);
      }
      if forall i :: 0 <= i < |xs| ==> Same(xs[i], ys[i], true) {
        assert NormalItems(xs) == NormalItems(ys);
      }
      if NormalItems(xs) == NormalItems(ys) {
        assert forall i :: 0 <= i < |xs| ==> NormalItems(xs)[i] == NormalItems(ys)[i];
      }
    }
  }

  lemma ArraySame(xs: seq<Json>, ys: seq<Json>)
    ensures Same(Arr(xs), Arr(ys), true) <==> |xs| == |ys| && forall i :: 0 <= i < |xs| ==> Same(xs[i], ys[i], true)
  {
  }

  lemma ArrayNormal(xs: seq<Json>)
    ensures Normal(Arr(xs)) == Arr(NormalItems(xs))
  {
  }

  ghost predicate Agree(m: Member, n: Member) {
    Normal(m.value) == Normal(n.value) <==> Same(m.value, n.value, true)
  }

  lemma SameMemberIsNormal(m: Member, n: Member)
    requires Agree(m, n)
    ensures SameMember(m, n, true) <==> Defined(n) && NormalMember(m) == NormalMember(n)
  {
  }

  lemma PartnersByNormal(ms: seq<Member>, ns: seq<Member>, i: nat)
    requires i < |ms| && Defined(ms[i])
    requires forall j :: 0 <= j < |ns| ==> Agree(ms[i], ns[j])
    ensures (exists j :: 0 <= j < |ns| && SameMember(ms[i], ns[j], true)) <==> NormalMember(ms[i]) in NormalMembers(ns)
  {
    hide Agree, SameMember, NormalMember, NormalMembers;
    forall j | 0 <= j < |ns|
      ensures SameMember(ms[i], ns[j], true) <==> Defined(ns[j]) && NormalMember(ms[i]) == NormalMember(ns[j])
    {
      SameMemberIsNormal(ms[i], ns[j]);
    }
    NormalMemberIn(ns, NormalMember(ms[i]));
  }

  ghost predicate AllAgree(ms: seq<Member>, ns: seq<Member>) {
    forall i, j :: 0 <= i < |ms| && 0 <= j < |ns| ==> Agree(ms[i], ns[j])
  }

  ghost predicate Partnered(ms: seq<Member>, ns: seq<Member>, lax: bool) {
    forall i :: 0 <= i < |ms| && Defined(ms[i]) ==> exists j :: 0 <= j < |ns| && SameMember(ms[i], ns[j], lax)
  }

  ghost predicate KeysCovered(ms: seq<Member>, ns: seq<Member>) {
    forall j :: 0 <= j < |ns| && Defined(ns[j]) ==>
      exists i :: 0 <= i < |ms| && Defined(ms[i]) && ms[i].key == ns[j].key
  }

  lemma ObjectSame(ms: seq<Member>, ns: seq<Member>, lax: bool)
    ensures Same(Obj(ms), Obj(ns), lax) <==> Partnered(ms, ns, lax) && KeysCovered(ms, ns)
  {
    hide SameMember;
  }

  lemma PartneredIsWithin(ms: seq<Member>, ns: seq<Member>)
    requires AllAgree(ms, ns)
    ensures Partnered(ms, ns, true) <==> forall x :: x in NormalMembers(ms) ==> x in NormalMembers(ns)
  {
    hide Agree, SameMember, NormalMember, NormalMembers;
    forall i | 0 <= i < |ms| && Defined(ms[i])
      ensures (exists j :: 0 <= j < |ns| && SameMember(ms[i], ns[j], true)) <==> NormalMember(ms[i]) in NormalMembers(ns)
      ensures NormalMember(ms[i]) in NormalMembers(ms)
    {
      PartnersByNormal(ms, ns, i);
      NormalMemberIn(ms, NormalMember(ms[i]));
    }
    if Partnered(ms, ns, true) {
      forall x | x in NormalMembers(ms) ensures x in NormalMembers(ns) {
        NormalMemberIn(ms, x);
        var i :| 0 <= i < |ms| && Defined(ms[i]) && NormalMember(ms[i]) == x;
      }
    }
  }

  /** When the keys are covered and every member of `ms` has its partner, the
      partner of a key's owner is the key's other owner. */
  lemma CoveredIsWithin(ms: seq<Member>, ns: seq<Member>, j: nat)
    requires DistinctBy(Key(), ns) && KeysCovered(ms, ns) && j < |ns| && Defined(ns[j])
    requires forall x :: x in NormalMembers(ms) ==> x in NormalMembers(ns)
    ensures NormalMember(ns[j]) in NormalMembers(ms)
  {
    hide NormalMembers;
    var i :| 0 <= i < |ms| && Defined(ms[i]) && ms[i].key == ns[j].key;
    NormalMemberIn(ms, NormalMember(ms[i]));
    NormalMemberIn(ns, NormalMember(ms[i]));
    var k :| 0 <= k < |ns| && NormalMember(ns[k]) == NormalMember(ms[i]);
    assert ns[k].key == NormalMember(ns[k]).key == NormalMember(ms[i]).key == ns[j].key;
    assert Key()(ns[k]) == Key()(ns[j]);
    assert k == j;
  }

  lemma KeysFromNormal(ms: seq<Member>, ns: seq<Member>)
    requires forall x :: x in NormalMembers(ns) ==> x in NormalMembers(ms)
    ensures KeysCovered(ms, ns)
  {
    hide NormalMembers;
    forall j | 0 <= j < |ns| && Defined(ns[j])
      ensures exists i :: 0 <= i < |ms| && Defined(ms[i]) && ms[i].key == ns[j].key
    {
      NormalMemberIn(ns, NormalMember(ns[j]));
      NormalMemberIn(ms, NormalMember(ns[j]));
      var i :| 0 <= i < |ms| && Defined(ms[i]) && NormalMember(ms[i]) == NormalMember(ns[j]);
      assert ms[i].key == NormalMember(ms[i]).key;
    }
  }

  lemma SameObjects(ms: seq<Member>, ns: seq<Member>)
    requires DistinctBy(Key(), ms) && DistinctBy(Key(), ns) && AllAgree(ms, ns)
    ensures Normal(Obj(ms)) == Normal(Obj(ns)) <==> Same(Obj(ms), Obj(ns), true)
  {
    hide Normal, Same, NormalMembers, NormalMember, AllAgree, Partnered, KeysCovered, DistinctBy;
    NormalObjectsEqual(ms, ns);
    ObjectSame(ms, ns, true);
    PartneredIsWithin(ms, ns);
    if Partnered(ms, ns, true) && KeysCovered(ms, ns) {
      forall x | x in NormalMembers(ns) ensures x in NormalMembers(ms) {
        NormalMemberIn(ns, x);
        var j :| 0 <= j < |ns| && Defined(ns[j]) && NormalMember(ns[j]) == x;
        CoveredIsWithin(ms, ns, j);
      }
    }
    if forall x :: x in NormalMembers(ms) <==> x in NormalMembers(ns) {
      KeysFromNormal(ms, ns);
    }
  }

  /** The normal form decides sameness. */
  lemma {:induction false} NormalDecides(v: Json, w: Json)
    requires Record(v) && Record(w)
    ensures Normal(v) == Normal(w) <==> Same(v, w, true)
    decreases v
  {
    match v
    case Arr(items) =>
      if w.Arr? {
        if |items| == |w.items| {
          forall i | 0 <= i < |items| ensures Normal(items[i]) == Normal(w.items[i]) <==> Same(items[i], w.items[i], true) {
            NormalDecides(items[i], w.items[i]);
          }
        }
        SameArrays(items, w.items);
      }
    case Obj(members) =>
      if w.Obj? {
        forall i, j | 0 <= i < |members| && 0 <= j < |w.members| ensures Agree(members[i], w.members[j]) {
          NormalDecides(members[i].value, w.members[j].value);
        }
        SameObjects(members, w.members);
      }
    case _ =>
  }

  /** Two values print alike exactly when they are the same, undefined counting as
      null wherever a value stands. */
  lemma PrintsAlike(numbers: Numbers, v: Json, w: Json)
    requires NumbersValid(numbers) && Record(v) && Record(w)
    ensures Print(numbers, v) == Print(numbers, w) <==> Same(v, w, true)
  {
    PrintsAlikeIff(numbers, v, w);
    NormalDecides(v, w);
  }

  // -------------------------------------------- undefined outside object members

  /** Undefined stands nowhere but as the value of a member. */
  ghost predicate Tidy(v: Json)
    decreases v
  {
    match v
    case Undefined => false
    case Arr(items) => forall i :: 0 <= i < |items| ==> Tidy(items[i])
    case Obj(members) => forall i :: 0 <= i < |members| && Defined(members[i]) ==> Tidy(members[i].value)
    case _ => true
  }

  lemma TidyObjects(ms: seq<Member>, ns: seq<Member>)
    requires forall i, j :: 0 <= i < |ms| && Defined(ms[i]) && 0 <= j < |ns| ==>
               (SameMember(ms[i], ns[j], true) <==> SameMember(ms[i], ns[j], false))
    ensures Same(Obj(ms), Obj(ns), true) <==> Same(Obj(ms), Obj(ns), false)
  {
    hide Same, SameMember;
    ObjectSame(ms, ns, true);
    ObjectSame(ms, ns, false);
  }

  lemma {:induction false} TidyDecides(v: Json, w: Json)
    requires Tidy(v) && Tidy(w)
    ensures Same(v, w, true) <==> Same(v, w, false)
    decreases v
  {
    match v
    case Arr(items) =>
      if w.Arr? && |items| == |w.items| {
        forall i | 0 <= i < |items| ensures Same(items[i], w.items[i], true) <==> Same(items[i], w.items[i], false) {
          TidyDecides(items[i], w.items[i]);
        }
      }
    case Obj(members) =>
      if w.Obj? {
        forall i, j | 0 <= i < |members| && Defined(members[i]) && 0 <= j < |w.members|
          ensures SameMember(members[i], w.members[j], true) <==> SameMember(members[i], w.members[j], false)
        {
          if Defined(w.members[j]) {
            TidyDecides(members[i].value, w.members[j].value);
          }
        }
        TidyObjects(members, w.members);
      }
    case _ =>
  }

  /** Where undefined stands only in members, canonical text is injective up to
      member order and undefined members. */
  lemma CanonicalTextInjective(numbers: Numbers, v: Json, w: Json)
    requires NumbersValid(numbers) && Record(v) && Record(w) && Tidy(v) && Tidy(w)
    ensures Print(numbers, v) == Print(numbers, w) <==> Same(v, w, false)
  {
    PrintsAlike(numbers, v, w);
    TidyDecides(v, w);
  }

  /** The value with every undefined that is not a member's replaced by null. */
  function Filled(v: Json): Json
    decreases v
  {
    match v
    case Undefined => Null
    case Arr(items) => Arr(seq(|items|, i requires 0 <= i < |items| => Filled(items[i])))
    case Obj(members) => Obj(seq(|members|, i requires 0 <= i < |members| => FilledMember(members[i])))
    case _ => v
  }

  function FilledMember(m: Member): Member
    decreases m
  {
    if Defined(m) then Member(m.key, Filled(m.value)) else m
  }

  lemma {:induction false} FillingPrintsAlike(numbers: Numbers, v: Json)
    ensures Print(numbers, v) == Print(numbers, Filled(v))
    ensures Tidy(Filled(v))
    decreases v
  {
    match v
    case Arr(items) =>
      forall i | 0 <= i < |items|
        ensures Print(numbers, items[i]) == Print(numbers, Filled(items[i])) && Tidy(Filled(items[i]))
      {
        FillingPrintsAlike(numbers, items[i]);
      }
      ItemsPrintAlike(numbers, items, Filled(v).items);
    case Obj(members) =>
      forall i | 0 <= i < |members| && Defined(members[i])
        ensures Print(numbers, members[i].value) == Print(numbers, Filled(members[i].value))
        ensures Tidy(Filled(members[i].value))
      {
        FillingPrintsAlike(numbers, members[i].value);
      }
      FilledMembersPrintAlike(numbers, members, Filled(v).members);
    case _ =>
  }

  lemma {:induction false} ItemsPrintAlike(numbers: Numbers, xs: seq<Json>, ys: seq<Json>)
    requires |xs| == |ys| && forall i :: 0 <= i < |xs| ==> Print(numbers, xs[i]) == Print(numbers, ys[i])
    ensures PrintItems(numbers, xs) == PrintItems(numbers, ys)
  {
    if xs != [] {
      ItemsPrintAlike(numbers, xs[1..], ys[1..]);
    }
  }

  lemma {:induction false} FilledMembersPrintAlike(numbers: Numbers, xs: seq<Member>, ys: seq<Member>)
    requires |xs| == |ys| && forall i :: 0 <= i < |xs| ==> ys[i] == FilledMember(xs[i])
    requires forall i :: 0 <= i < |xs| && Defined(xs[i]) ==> Print(numbers, xs[i].value) == Print(numbers, Filled(xs[i].value))
    ensures PrintMembers(numbers, xs) == PrintMembers(numbers, ys)
  {
    if xs != [] {
      FilledMembersPrintAlike(numbers, xs[1..], ys[1..]);
      assert ys[0] == FilledMember(xs[0]);
    }
  }

  lemma {:induction false} FilledIsSameIff(v: Json)
    requires Record(v)
    ensures Same(v, Filled(v), false) <==> Tidy(v)
    decreases v
  {
    match v
    case Arr(items) =>
      forall i | 0 <= i < |items| ensures Same(items[i], Filled(items[i]), false) <==> Tidy(items[i]) {
        FilledIsSameIff(items[i]);
      }
    case Obj(members) =>
      forall i | 0 <= i < |members| && Defined(members[i])
        ensures Same(members[i].value, Filled(members[i].value), false) <==> Tidy(members[i].value)
      {
        FilledIsSameIff(members[i].value);
      }
      FilledObjects(members, Filled(v).members);
    case _ =>
  }

  lemma FilledObjects(ms: seq<Member>, ns: seq<Member>)
    requires DistinctBy(Key(), ms)
    requires |ns| == |ms| && forall i :: 0 <= i < |ms| ==> ns[i] == FilledMember(ms[i])
    requires forall i :: 0 <= i < |ms| && Defined(ms[i]) ==>
               (Same(ms[i].value, Filled(ms[i].value), false) <==> Tidy(ms[i].value))
    ensures Same(Obj(ms), Obj(ns), false) <==> Tidy(Obj(ms))
  {
    hide Same, Filled;
    ObjectSame(ms, ns, false);
    forall j | 0 <= j < |ns| && Defined(ns[j])
      ensures Defined(ms[j]) && ms[j].key == ns[j].key
    {
      assert ns[j] == FilledMember(ms[j]);
    }
    forall i | 0 <= i < |ms| && Defined(ms[i])
      ensures (exists j :: 0 <= j < |ns| && SameMember(ms[i], ns[j], false)) <==> Tidy(ms[i].value)
    {
      FilledPartner(ms, ns, i);
    }
  }

  /** Only the member in its own place can be a member's partner. */
  lemma FilledPartner(ms: seq<Member>, ns: seq<Member>, i: nat)
    requires DistinctBy(Key(), ms)
    requires |ns| == |ms| && forall k :: 0 <= k < |ms| ==> ns[k] == FilledMember(ms[k])
    requires i < |ms| && Defined(ms[i])
    requires Same(ms[i].value, Filled(ms[i].value), false) <==> Tidy(ms[i].value)
    ensures (exists j :: 0 <= j < |ns| && SameMember(ms[i], ns[j], false)) <==> Tidy(ms[i].value)
  {
    hide Same, Filled;
    FilledDefined(ms[i]);
    assert ns[i] == FilledMember(ms[i]);
    forall j | 0 <= j < |ns| && j != i ensures !SameMember(ms[i], ns[j], false) {
      assert ns[j].key == ms[j].key;
      assert Key()(ms[i]) != Key()(ms[j]);
    }
  }

  lemma FilledDefined(m: Member)
    requires Defined(m)
    ensures Defined(FilledMember(m))
  {
  }

  /** Undefined anywhere else breaks injectivity: putting null in its place gives a
      different value that prints the same. */
  lemma UntidyValuesCollide(numbers: Numbers, v: Json)
    requires Record(v)
    ensures Print(numbers, v) == Print(numbers, Filled(v))
    ensures Tidy(v) <==> Same(v, Filled(v), false)
  {
    FillingPrintsAlike(numbers, v);
    FilledIsSameIff(v);
  }

  /** The smallest collision, a one-element array. */
  lemma UndefinedPrintsAsNull(numbers: Numbers)
    ensures Print(numbers, Arr([Undefined])) == Print(numbers, Arr([Null]))
    ensures !Same(Arr([Undefined]), Arr([Null]), false)
  {
    var v := Arr([Undefined]);
    UntidyValuesCollide(numbers, v);
    assert !Tidy(v.items[0]);
    assert Filled(v).items == [Null];
  }

  // ---------------------------------------------------------- sorted and unique

  /** Whether the check reports an issue. */
  predicate ReportsIssue(values: seq<Text>) {
    var canonical := SortBy(Distinct(values), ById(Itself()));
    |canonical| != |values| || exists i :: 0 <= i < |canonical| && canonical[i] != values[i]
  }

  /** No issue is reported exactly when every text precedes the next ones. */
  lemma AcceptsSortedUnique(values: seq<Text>)
    ensures !ReportsIssue(values) <==> forall i, j :: 0 <= i < j < |values| ==> Less(values[i], values[j])
  {
    hide SortBy, Distinct, Less;
    var before := ById(Itself());
    var unique := Distinct(values);
    DistinctKeepsMembers(values);
    ByScoresStrict(Zero<Text>(), Zero<Text>(), Itself());
    ByScoresTotal(Zero<Text>(), Zero<Text>(), Itself(), unique);
    SortBySorts(unique, before);
    if !ReportsIssue(values) {
      assert SortBy(unique, before) == values;
      forall i, j | 0 <= i < j < |values| ensures Less(values[i], values[j]) {
        assert before(values[i], values[j]);
      }
    }
    if forall i, j :: 0 <= i < j < |values| ==> Less(values[i], values[j]) {
      forall i, j | 0 <= i < j < |values| ensures before(values[i], values[j]) && Itself()(values[i]) != Itself()(values[j]) {
        LessIrreflexive(values[i]);
      }
      SortedUnique(SortBy(unique, before), values, before);
    }
  }
}
