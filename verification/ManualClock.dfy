/**
 The clock that moves only when told.

 Callbacks are finite programs: each schedules further callbacks and cancels
 timers, in order.  The total size of the pending programs bounds an advance.
 */
module ManualClock {
  import opened Wrappers

  datatype Act = Schedule(delay: real, run: Callback) | Cancel(id: nat)
  datatype Callback = Callback(tag: nat, acts: seq<Act>)

  /** Pending timers are kept in the order in which they were scheduled. */
  datatype Timer = Timer(id: nat, at: real, run: Callback)
  datatype Firing = Firing(at: real, id: nat, tag: nat)

  datatype Clock = Clock(
    now: real,
    sequence: nat,
    timers: seq<Timer>,
    fired: seq<Firing>,
    cancelled: set<nat>)

  // ------------------------------------------------------------------- sizes

  function Size(run: Callback): nat
    decreases run
  {
    1 + ActsSize(run.acts)
  }

  function ActSize(act: Act): nat
    decreases act
  {
    match act
    case Schedule(_, run) => Size(run)
    case Cancel(_) => 0
  }

  function ActsSize(acts: seq<Act>): nat
    decreases acts
  {
    if acts == [] then 0 else ActSize(acts[0]) + ActsSize(acts[1..])
  }

  function TotalSize(timers: seq<Timer>): nat {
    if timers == [] then 0 else Size(timers[0].run) + TotalSize(timers[1..])
  }

  lemma {:induction false} TotalSizeConcat(a: seq<Timer>, b: seq<Timer>)
    ensures TotalSize(a + b) == TotalSize(a) + TotalSize(b)
  {
    if a == [] {
      assert a + b == b;
    } else {
      assert (a + b)[1..] == a[1..] + b;
      TotalSizeConcat(a[1..], b);
    }
  }

  // --------------------------------------------------------------- operations

  function Without(timers: seq<Timer>, id: nat): seq<Timer> {
    if timers == [] then []
    else if timers[0].id == id then Without(timers[1..], id)
    else [timers[0]] + Without(timers[1..], id)
  }

  predicate Pending(timers: seq<Timer>, id: nat) {
    exists i :: 0 <= i < |timers| && timers[i].id == id
  }

  function Arm(c: Clock, delay: real, run: Callback): Clock {
    var wait := if delay > 0.0 then delay else 0.0;
    c.(sequence := c.sequence + 1, timers := c.timers + [Timer(c.sequence, c.now + wait, run)])
  }

  function Disarm(c: Clock, id: nat): Clock {
    c.(timers := Without(c.timers, id),
       cancelled := if Pending(c.timers, id) then c.cancelled + {id} else c.cancelled)
  }

  function Perform(c: Clock, acts: seq<Act>): Clock
    decreases |acts|
  {
    if acts == [] then c
    else
      match acts[0]
      case Schedule(delay, run) => Perform(Arm(c, delay, run), acts[1..])
      case Cancel(id) => Perform(Disarm(c, id), acts[1..])
  }

  predicate Before(s: Timer, t: Timer) {
    s.at < t.at || (s.at == t.at && s.id < t.id)
  }

  /** The earliest timer due by `target`, ties going to the one scheduled first. */
  predicate IsNext(timers: seq<Timer>, target: real, k: nat) {
    && k < |timers| && timers[k].at <= target
    && forall j :: 0 <= j < |timers| && j != k && timers[j].at <= target ==> Before(timers[k], timers[j])
  }

  /** Pending timers carry distinct ids. */
  predicate Distinct(timers: seq<Timer>) {
    forall i, j :: 0 <= i < j < |timers| ==> timers[i].id < timers[j].id
  }

  function Next(timers: seq<Timer>, target: real): (k: Option<nat>)
    ensures k.Some? ==> k.value < |timers| && timers[k.value].at <= target
    ensures k.None? ==> forall j :: 0 <= j < |timers| ==> timers[j].at > target
  {
    if timers == [] then None
    else
      var n := |timers| - 1;
      var k := Next(timers[..n], target);
      if timers[n].at <= target && (k.None? || timers[n].at < timers[k.value].at) then Some(n) else k
  }

  lemma {:induction false} NextIsLeast(timers: seq<Timer>, target: real)
    requires Distinct(timers)
    ensures Next(timers, target).Some? ==> IsNext(timers, target, Next(timers, target).value)
  {
    if timers != [] {
      NextIsLeast(timers[..|timers| - 1], target);
    }
  }

  lemma NextIsUnique(timers: seq<Timer>, target: real, k: nat)
    requires Distinct(timers) && IsNext(timers, target, k)
    ensures Next(timers, target) == Some(k)
  {
    NextIsLeast(timers, target);
  }

  /** The clock as a timer's callback first sees it. */
  function Struck(c: Clock, k: nat): Clock
    requires k < |c.timers|
  {
    var t := c.timers[k];
    c.(now := t.at, timers := c.timers[..k] + c.timers[k + 1..], fired := c.fired + [Firing(t.at, t.id, t.run.tag)])
  }

  /** Removes timer `k` and runs its callback at its own instant. */
  function Fire(c: Clock, k: nat): Clock
    requires k < |c.timers|
  {
    Perform(Struck(c, k), c.timers[k].run.acts)
  }

  lemma {:induction false} WithoutSize(timers: seq<Timer>, id: nat)
    ensures TotalSize(Without(timers, id)) <= TotalSize(timers)
  {
    if timers != [] {
      WithoutSize(timers[1..], id);
      if timers[0].id != id {
        assert ([timers[0]] + Without(timers[1..], id))[1..] == Without(timers[1..], id);
      }
    }
  }

  lemma {:induction false} PerformSize(c: Clock, acts: seq<Act>)
    ensures TotalSize(Perform(c, acts).timers) <= TotalSize(c.timers) + ActsSize(acts)
    decreases |acts|
  {
    if acts != [] {
      match acts[0]
      case Schedule(delay, run) =>
        var d := Arm(c, delay, run);
        TotalSizeConcat(c.timers, [d.timers[|c.timers|]]);
        assert TotalSize([d.timers[|c.timers|]]) == Size(run) + TotalSize([d.timers[|c.timers|]][1..]);
        PerformSize(d, acts[1..]);
      case Cancel(id) =>
        WithoutSize(c.timers, id);
        PerformSize(Disarm(c, id), acts[1..]);
    }
  }

  lemma FireShrinks(c: Clock, k: nat)
    requires k < |c.timers|
    ensures TotalSize(Fire(c, k).timers) < TotalSize(c.timers)
  {
    var left, right := c.timers[..k], c.timers[k + 1..];
    assert c.timers == left + ([c.timers[k]] + right);
    TotalSizeConcat(left, [c.timers[k]] + right);
    TotalSizeConcat(left, right);
    assert ([c.timers[k]] + right)[1..] == right;
    PerformSize(Struck(c, k), c.timers[k].run.acts);
  }

  /** Fires whatever is due by `target`, re-reading the pending timers each time. */
  function Sweep(c: Clock, target: real): Clock
    decreases TotalSize(c.timers)
  {
    var k := Next(c.timers, target);
    if k.None? then c.(now := target)
    else FireShrinks(c, k.value); Sweep(Fire(c, k.value), target)
  }

  function AdvanceBy(c: Clock, byMs: real): Clock {
    Sweep(c, c.now + byMs)
  }

  // ------------------------------------------------------------- well-formed

  /** Ids are handed out in order and never reused. */
  predicate Formed(c: Clock) {
    Distinct(c.timers) && forall i :: 0 <= i < |c.timers| ==> c.timers[i].id < c.sequence
  }

  lemma {:induction false} WithoutMembers(timers: seq<Timer>, id: nat)
    ensures forall t :: t in Without(timers, id) <==> t in timers && t.id != id
  {
    if timers != [] {
      WithoutMembers(timers[1..], id);
      assert timers == [timers[0]] + timers[1..];
    }
  }

  lemma {:induction false} WithoutDistinct(timers: seq<Timer>, id: nat)
    requires Distinct(timers)
    ensures Distinct(Without(timers, id))
  {
    if timers != [] {
      var rest := Without(timers[1..], id);
      WithoutDistinct(timers[1..], id);
      WithoutMembers(timers[1..], id);
      forall i | 0 <= i < |rest| ensures timers[0].id < rest[i].id {
        assert rest[i] in timers[1..];
      }
    }
  }

  lemma {:induction false} PerformForms(c: Clock, acts: seq<Act>)
    requires Formed(c)
    ensures Formed(Perform(c, acts))
    decreases |acts|
  {
    if acts != [] {
      match acts[0]
      case Schedule(delay, run) =>
        PerformForms(Arm(c, delay, run), acts[1..]);
      case Cancel(id) =>
        WithoutDistinct(c.timers, id);
        WithoutMembers(c.timers, id);
        var d := Disarm(c, id);
        forall i | 0 <= i < |d.timers| ensures d.timers[i].id < d.sequence {
          assert d.timers[i] in c.timers;
        }
        PerformForms(d, acts[1..]);
    }
  }

  lemma FireForms(c: Clock, k: nat)
    requires Formed(c) && k < |c.timers|
    ensures Formed(Fire(c, k))
  {
    PerformForms(Struck(c, k), c.timers[k].run.acts);
  }

  lemma {:induction false} SweepForms(c: Clock, target: real)
    requires Formed(c)
    ensures Formed(Sweep(c, target))
    decreases TotalSize(c.timers)
  {
    var k := Next(c.timers, target);
    if k.Some? {
      FireShrinks(c, k.value);
      FireForms(c, k.value);
      SweepForms(Fire(c, k.value), target);
    }
  }

  // -------------------------------------------------------------- composition

  /** Nothing a sweep does depends on where time stood before it. */
  lemma SweepForgetsNow(c: Clock, instant: real, target: real)
    ensures Sweep(c.(now := instant), target) == Sweep(c, target)
  {
    var k := Next(c.timers, target);
    if k.Some? {
      assert Fire(c.(now := instant), k.value) == Fire(c, k.value);
    }
  }

  /** Stopping on the way changes nothing: sweeping to an instant and then to a
      later one is sweeping to the later one. */
  lemma {:induction false} SweepsCompose(c: Clock, first: real, second: real)
    requires Formed(c) && first <= second
    ensures Sweep(Sweep(c, first), second) == Sweep(c, second)
    decreases TotalSize(c.timers)
  {
    var k := Next(c.timers, first);
    if k.None? {
      SweepForgetsNow(c, first, second);
    } else {
      NextIsLeast(c.timers, first);
      NextIsUnique(c.timers, second, k.value);
      FireShrinks(c, k.value);
      FireForms(c, k.value);
      SweepsCompose(Fire(c, k.value), first, second);
    }
  }

  /** For any first move and any second move that is not backwards, advancing
      twice fires the same timers, in the same order, at the same instants, and
      leaves the same clock as advancing once by the sum; this includes the timers
      that callbacks schedule and cancel on the way. */
  lemma AdvancesCompose(c: Clock, a: real, b: real)
    requires Formed(c) && b >= 0.0
    ensures AdvanceBy(AdvanceBy(c, a), b) == AdvanceBy(c, a + b)
  {
    hide Sweep, Next;
    SweepArrives(c, c.now + a);
    SweepsCompose(c, c.now + a, c.now + a + b);
    assert c.now + (a + b) == c.now + a + b;
  }

  lemma {:induction false} SweepArrives(c: Clock, target: real)
    requires Formed(c)
    ensures Sweep(c, target).now == target
    ensures forall i :: 0 <= i < |Sweep(c, target).timers| ==> Sweep(c, target).timers[i].at > target
    ensures c.fired <= Sweep(c, target).fired
    decreases TotalSize(c.timers)
  {
    var k := Next(c.timers, target);
    if k.Some? {
      FireShrinks(c, k.value);
      NextIsLeast(c.timers, target);
      FireForms(c, k.value);
      FireLogs(c, k.value);
      SweepArrives(Fire(c, k.value), target);
    }
  }

  /** The exact condition: two moves are one exactly when the second is not
      backwards or the first passed no timer that the sum stops short of. */
  lemma AdvancesComposeIff(c: Clock, a: real, b: real)
    requires Formed(c)
    ensures AdvanceBy(AdvanceBy(c, a), b) == AdvanceBy(c, a + b)
            <==> b >= 0.0 || Next(AdvanceBy(c, a + b).timers, c.now + a).None?
  {
    hide Sweep, Next;
    if b >= 0.0 {
      AdvancesCompose(c, a, b);
    } else {
      SweepArrives(c, c.now + a);
      assert c.now + (a + b) == c.now + a + b;
      BackwardsComposes(c, c.now + a, c.now + a + b);
    }
  }

  /** No pending callback schedules or cancels anything. */
  predicate Quiet(c: Clock) {
    forall i :: 0 <= i < |c.timers| ==> c.timers[i].run.acts == []
  }

  lemma WithoutPlace(timers: seq<Timer>, k: nat)
    requires Distinct(timers) && k < |timers|
    ensures forall t :: t in timers[..k] + timers[k + 1..] <==> t in timers && t != timers[k]
  {
    assert timers == timers[..k] + [timers[k]] + timers[k + 1..];
    forall t ensures t in timers[..k] + timers[k + 1..] <==> t in timers && t != timers[k] {
      assert t in timers <==> t in timers[..k] || t == timers[k] || t in timers[k + 1..];
    }
  }

  lemma QuietFire(c: Clock, k: nat)
    requires Formed(c) && Quiet(c) && k < |c.timers|
    ensures Quiet(Fire(c, k))
    ensures forall t :: t in Fire(c, k).timers <==> t in c.timers && t != c.timers[k]
  {
    var d := Fire(c, k);
    assert d.timers == c.timers[..k] + c.timers[k + 1..];
    WithoutPlace(c.timers, k);
    hide Fire, Formed;
    forall i | 0 <= i < |d.timers| ensures d.timers[i].run.acts == [] {
      assert d.timers[i] in c.timers;
    }
  }

  /** A sweep of a quiet clock leaves exactly the timers due later. */
  lemma {:induction false} QuietSweep(c: Clock, target: real, size: nat)
    requires Formed(c) && Quiet(c) && TotalSize(c.timers) <= size
    ensures forall t :: t in Sweep(c, target).timers <==> t in c.timers && t.at > target
    decreases size
  {
    var k := Next(c.timers, target);
    if k.Some? {
      FireShrinks(c, k.value);
      FireForms(c, k.value);
      QuietFire(c, k.value);
      assert Sweep(c, target) == Sweep(Fire(c, k.value), target);
      hide Sweep, Fire, Formed, Quiet;
      QuietSweep(Fire(c, k.value), target, size - 1);
    }
  }

  /** On a quiet clock the condition is one on the pending timers: the second move is
      not backwards, or none of them is due after the sum and by the first move. */
  lemma QuietAdvancesComposeIff(c: Clock, a: real, b: real)
    requires Formed(c) && Quiet(c)
    ensures AdvanceBy(AdvanceBy(c, a), b) == AdvanceBy(c, a + b)
            <==> b >= 0.0 || forall t :: t in c.timers ==> !(c.now + a + b < t.at <= c.now + a)
  {
    hide Sweep, Formed, Quiet;
    AdvancesComposeIff(c, a, b);
    QuietSweep(c, c.now + (a + b), TotalSize(c.timers));
    var left := AdvanceBy(c, a + b).timers;
    if Next(left, c.now + a).None? {
      forall t | t in c.timers && t.at > c.now + a + b ensures t.at > c.now + a {
        assert t in left;
      }
    } else {
      var t := left[Next(left, c.now + a).value];
      assert t in left;
    }
  }

  /** Whatever the callbacks do, moves compose when the first fires nothing. */
  lemma IdleAdvancesCompose(c: Clock, a: real, b: real)
    requires Formed(c) && forall i :: 0 <= i < |c.timers| ==> c.timers[i].at > c.now + a
    ensures AdvanceBy(AdvanceBy(c, a), b) == AdvanceBy(c, a + b)
  {
    AdvancesComposeIff(c, a, b);
    assert b < 0.0 ==> Next(c.timers, c.now + (a + b)).None?;
  }

  /** A failing input: one timer due at 1, a move to 2 and one back to 0. */
  lemma BackwardsAdvanceFires()
    ensures var c := Clock(0.0, 1, [Timer(0, 1.0, Callback(0, []))], [], {});
            AdvanceBy(AdvanceBy(c, 2.0), -2.0) != AdvanceBy(c, 2.0 + -2.0)
  {
    var c := Clock(0.0, 1, [Timer(0, 1.0, Callback(0, []))], [], {});
    QuietAdvancesComposeIff(c, 2.0, -2.0);
    assert c.timers[0] in c.timers;
  }

  /** Sweeping to `far` and then stepping back to `near` is sweeping to `near`
      exactly when nothing is due in between. */
  lemma BackwardsComposes(c: Clock, far: real, near: real)
    requires Formed(c) && near < far
    ensures Sweep(Sweep(c, far), near) == Sweep(c, near) <==> Next(Sweep(c, near).timers, far).None?
  {
    var d := Sweep(c, near);
    SweepsCompose(c, near, far);
    SweepForms(c, near);
    SweepArrives(c, near);
    SweepArrives(c, far);
    assert Next(Sweep(c, far).timers, near).None?;
    var k := Next(d.timers, far);
    if k.Some? {
      FireShrinks(d, k.value);
      FireLogs(d, k.value);
      FireForms(d, k.value);
      SweepArrives(Fire(d, k.value), far);
    }
  }

  lemma FireLogs(c: Clock, k: nat)
    requires k < |c.timers|
    ensures Fire(c, k).fired == c.fired + [Firing(c.timers[k].at, c.timers[k].id, c.timers[k].run.tag)]
  {
    PerformFrame(Struck(c, k), c.timers[k].run.acts);
  }

  lemma {:induction false} PerformFrame(c: Clock, acts: seq<Act>)
    ensures Perform(c, acts).fired == c.fired && Perform(c, acts).now == c.now && Perform(c, acts).sequence >= c.sequence
    decreases |acts|
  {
    if acts != [] {
      match acts[0]
      case Schedule(delay, run) => PerformFrame(Arm(c, delay, run), acts[1..]);
      case Cancel(id) => PerformFrame(Disarm(c, id), acts[1..]);
    }
  }

  // ------------------------------------------------------------ order, history

  predicate Sooner(f: Firing, g: Firing) {
    f.at < g.at || (f.at == g.at && f.id < g.id)
  }

  /** The history of a clock that never moved backwards: firings are in (instant,
      id) order, no pending deadline lies in the past or before a firing, and
      every timer scheduled so far is pending, fired or cancelled, and only one
      of the three. */
  ghost predicate History(c: Clock) {
    && Formed(c)
    && (forall i :: 0 <= i < |c.timers| ==> c.timers[i].at >= c.now)
    && (forall i, j :: 0 <= i < j < |c.fired| ==> Sooner(c.fired[i], c.fired[j]))
    && (forall i :: 0 <= i < |c.fired| ==> c.fired[i].at <= c.now && c.fired[i].id < c.sequence)
    && (forall i, k :: 0 <= i < |c.fired| && 0 <= k < |c.timers| ==>
          Sooner(c.fired[i], Firing(c.timers[k].at, c.timers[k].id, 0)))
    && Partition(c)
  }

  predicate Went(c: Clock, id: nat) {
    exists i :: 0 <= i < |c.fired| && c.fired[i].id == id
  }

  ghost predicate Partition(c: Clock) {
    && (forall id :: 0 <= id < c.sequence ==> Pending(c.timers, id) || Went(c, id) || id in c.cancelled)
    && (forall id :: id in c.cancelled ==> id < c.sequence && !Pending(c.timers, id) && !Went(c, id))
    && (forall i, k :: 0 <= i < |c.fired| && 0 <= k < |c.timers| ==> c.fired[i].id != c.timers[k].id)
    && (forall i, j :: 0 <= i < j < |c.fired| ==> c.fired[i].id != c.fired[j].id)
  }

  lemma ArmKeeps(c: Clock, delay: real, run: Callback)
    requires History(c)
    ensures History(Arm(c, delay, run))
  {
    var d := Arm(c, delay, run);
    var n := |c.timers|;
    assert d.timers[n].id == c.sequence && d.timers[n].at >= c.now;
    assert forall i :: 0 <= i < n ==> d.timers[i] == c.timers[i];
    ArmPartition(c, delay, run);
    hide Partition;
  }

  lemma ArmPartition(c: Clock, delay: real, run: Callback)
    requires Formed(c) && Partition(c) && forall i :: 0 <= i < |c.fired| ==> c.fired[i].id < c.sequence
    ensures Partition(Arm(c, delay, run))
  {
    var d := Arm(c, delay, run);
    var n := |c.timers|;
    assert d.timers[n].id == c.sequence;
    assert forall i :: 0 <= i < n ==> d.timers[i] == c.timers[i];
    forall id | 0 <= id < d.sequence ensures Pending(d.timers, id) || Went(d, id) || id in d.cancelled
    {
      if id < c.sequence && Pending(c.timers, id) {
        var i :| 0 <= i < |c.timers| && c.timers[i].id == id;
        assert d.timers[i].id == id;
      } else if id < c.sequence && Went(c, id) {
        var i :| 0 <= i < |c.fired| && c.fired[i].id == id;
        assert d.fired[i].id == id;
      }
    }
    forall id | id in d.cancelled ensures !Pending(d.timers, id) && !Went(d, id)
    {
      assert !Pending(c.timers, id) && !Went(c, id);
    }
  }

  lemma DisarmKeeps(c: Clock, id: nat)
    requires History(c)
    ensures History(Disarm(c, id))
  {
    var d := Disarm(c, id);
    WithoutDistinct(c.timers, id);
    WithoutMembers(c.timers, id);
    assert forall i :: 0 <= i < |d.timers| ==> d.timers[i] in c.timers;
    DisarmPartition(c, id);
    hide Partition;
  }

  lemma DisarmPartition(c: Clock, id: nat)
    requires Formed(c) && Partition(c)
    ensures Partition(Disarm(c, id))
  {
    var d := Disarm(c, id);
    WithoutMembers(c.timers, id);
    forall k | 0 <= k < |d.timers| ensures d.timers[k] in c.timers && d.timers[k].id != id
    {
      assert d.timers[k] in d.timers;
    }
    forall other | 0 <= other < d.sequence ensures Pending(d.timers, other) || Went(d, other) || other in d.cancelled
    {
      if Pending(c.timers, other) && other != id {
        var i :| 0 <= i < |c.timers| && c.timers[i].id == other;
        assert c.timers[i] in d.timers;
      } else if Went(c, other) {
        var i :| 0 <= i < |c.fired| && c.fired[i].id == other;
        assert d.fired[i].id == other;
      }
    }
    forall other | other in d.cancelled ensures other < d.sequence && !Pending(d.timers, other) && !Went(d, other)
    {
      if other == id && Pending(c.timers, id) {
        var i :| 0 <= i < |c.timers| && c.timers[i].id == id;
      }
    }
  }

  lemma StruckTimers(c: Clock, k: nat, target: real)
    requires IsNext(c.timers, target, k)
    ensures forall i :: 0 <= i < |Struck(c, k).timers| ==>
              Struck(c, k).timers[i] in c.timers && Before(c.timers[k], Struck(c, k).timers[i])
  {
    var d := Struck(c, k);
    forall i | 0 <= i < |d.timers| ensures d.timers[i] in c.timers && Before(c.timers[k], d.timers[i])
    {
      var j := if i < k then i else i + 1;
      assert d.timers[i] == c.timers[j] && j != k;
    }
  }

  lemma StruckKeeps(c: Clock, k: nat, target: real)
    requires History(c) && IsNext(c.timers, target, k)
    ensures History(Struck(c, k))
  {
    hide Partition;
    StruckPartition(c, k);
    FireForms(c, k);
    StruckTimers(c, k, target);
    hide IsNext;
    var d := Struck(c, k);
    var t := c.timers[k];
    assert d.fired[|c.fired|] == Firing(t.at, t.id, t.run.tag);
    assert Distinct(d.timers);
  }

  lemma StruckPartition(c: Clock, k: nat)
    requires Formed(c) && Partition(c) && k < |c.timers|
    ensures Partition(Struck(c, k))
  {
    var d := Struck(c, k);
    var t := c.timers[k];
    var n := |c.fired|;
    assert d.fired[n].id == t.id;
    forall i | 0 <= i < |d.timers| ensures d.timers[i] in c.timers && d.timers[i].id != t.id
    {
      var j := if i < k then i else i + 1;
      assert d.timers[i] == c.timers[j];
    }
    forall id | 0 <= id < d.sequence ensures Pending(d.timers, id) || Went(d, id) || id in d.cancelled
    {
      if id != t.id && Pending(c.timers, id) {
        var i :| 0 <= i < |c.timers| && c.timers[i].id == id;
        assert d.timers[if i < k then i else i - 1].id == id;
      } else if Went(c, id) {
        var i :| 0 <= i < |c.fired| && c.fired[i].id == id;
        assert d.fired[i].id == id;
      }
    }
    forall id | id in d.cancelled ensures id < d.sequence && !Pending(d.timers, id) && !Went(d, id)
    {
      assert !Pending(c.timers, id) && !Went(c, id);
    }
  }

  lemma {:induction false} PerformKeeps(c: Clock, acts: seq<Act>)
    requires History(c)
    ensures History(Perform(c, acts))
    decreases |acts|
  {
    hide History;
    if acts != [] {
      match acts[0]
      case Schedule(delay, run) =>
        ArmKeeps(c, delay, run);
        PerformKeeps(Arm(c, delay, run), acts[1..]);
      case Cancel(id) =>
        DisarmKeeps(c, id);
        PerformKeeps(Disarm(c, id), acts[1..]);
    }
  }

  lemma HistoryForms(c: Clock)
    requires History(c)
    ensures Formed(c)
    ensures forall i :: 0 <= i < |c.timers| ==> c.timers[i].at >= c.now
  {
  }

  /** A forward sweep keeps the history in order, and only adds firings, between the
      instant it starts at and the one it is headed for. */
  lemma {:induction false} SweepKeeps(c: Clock, target: real, size: nat)
    requires History(c) && target >= c.now && TotalSize(c.timers) <= size
    ensures History(Sweep(c, target))
    ensures c.fired <= Sweep(c, target).fired
    ensures forall i :: |c.fired| <= i < |Sweep(c, target).fired| ==> c.now <= Sweep(c, target).fired[i].at <= target
    decreases size
  {
    hide History, Fire;
    var k := Next(c.timers, target);
    if k.None? {
      LateNow(c, target);
    } else {
      FireHistory(c, k.value, target);
      FireShrinks(c, k.value);
      var d := Fire(c, k.value);
      var e := Sweep(d, target);
      assert Sweep(c, target) == e;
      hide Sweep, Next;
      SweepKeeps(d, target, size - 1);
      assert forall i :: |c.fired| <= i < |d.fired| ==> e.fired[i] == d.fired[i];
    }
  }

  lemma LateNow(c: Clock, target: real)
    requires History(c) && target >= c.now && Next(c.timers, target).None?
    ensures History(c.(now := target))
  {
    hide Partition;
    assert Partition(c.(now := target)) by {
      SamePartition(c, c.(now := target));
    }
  }

  lemma SamePartition(c: Clock, d: Clock)
    requires Partition(c) && d.timers == c.timers && d.fired == c.fired && d.sequence == c.sequence && d.cancelled == c.cancelled
    ensures Partition(d)
  {
    assert forall id :: Went(c, id) <==> Went(d, id);
  }

  lemma FireHistory(c: Clock, k: nat, target: real)
    requires History(c) && Next(c.timers, target) == Some(k)
    ensures History(Fire(c, k)) && Fire(c, k).now == c.timers[k].at && c.now <= c.timers[k].at <= target
    ensures Fire(c, k).fired == c.fired + [Firing(c.timers[k].at, c.timers[k].id, c.timers[k].run.tag)]
  {
    HistoryForms(c);
    NextIsLeast(c.timers, target);
    StruckKeeps(c, k, target);
    hide History;
    PerformKeeps(Struck(c, k), c.timers[k].run.acts);
    FireLogs(c, k);
    PerformFrame(Struck(c, k), c.timers[k].run.acts);
  }

  // -------------------------------------------------------------------- runs

  datatype Op = ScheduleOp(delay: real, run: Callback) | CancelOp(id: nat) | AdvanceOp(byMs: real)

  function Opened(start: real): Clock {
    Clock(start, 0, [], [], {})
  }

  function Do(c: Clock, op: Op): Clock {
    match op
    case ScheduleOp(delay, run) => Arm(c, delay, run)
    case CancelOp(id) => Disarm(c, id)
    case AdvanceOp(byMs) => AdvanceBy(c, byMs)
  }

  function DoAll(c: Clock, ops: seq<Op>): Clock
    decreases |ops|
  {
    if ops == [] then c else DoAll(Do(c, ops[0]), ops[1..])
  }

  /** Over every run that never moves the clock backwards: time never steps back,
      firings come in (instant, id) order, no pending deadline is ever in the
      past, and each timer fires at most once and only if it was not cancelled. */
  lemma {:induction false} RunsKeep(c: Clock, ops: seq<Op>)
    requires History(c)
    requires forall i :: 0 <= i < |ops| && ops[i].AdvanceOp? ==> ops[i].byMs >= 0.0
    ensures History(DoAll(c, ops)) && DoAll(c, ops).now >= c.now
    decreases |ops|
  {
    hide History;
    if ops != [] {
      match ops[0] {
        case ScheduleOp(delay, run) => ArmKeeps(c, delay, run);
        case CancelOp(id) => DisarmKeeps(c, id);
        case AdvanceOp(byMs) =>
          assert ops[0].byMs >= 0.0;
          SweepKeeps(c, c.now + byMs, TotalSize(c.timers));
          HistoryForms(c);
          SweepArrives(c, c.now + byMs);
      }
      RunsKeep(Do(c, ops[0]), ops[1..]);
    }
  }

  lemma OpenedHistory(start: real)
    ensures History(Opened(start))
  {
  }

  // ------------------------------------------------------------ when a timer fires

  /** A known timer that fires at `due` if it fires at all. */
  ghost predicate Destined(c: Clock, id: nat, due: real, tag: nat) {
    && id < c.sequence
    && (forall i :: 0 <= i < |c.timers| && c.timers[i].id == id ==> c.timers[i].at == due && c.timers[i].run.tag == tag)
    && (forall i :: 0 <= i < |c.fired| && c.fired[i].id == id ==> c.fired[i] == Firing(due, id, tag))
  }

  lemma DisarmDestined(c: Clock, cancelled: nat, id: nat, due: real, tag: nat)
    requires Destined(c, id, due, tag)
    ensures Destined(Disarm(c, cancelled), id, due, tag)
  {
    var d := Disarm(c, cancelled);
    WithoutMembers(c.timers, cancelled);
    forall i | 0 <= i < |d.timers| && d.timers[i].id == id ensures d.timers[i].at == due && d.timers[i].run.tag == tag {
      assert d.timers[i] in c.timers;
    }
  }

  lemma ArmDestined(c: Clock, delay: real, run: Callback, id: nat, due: real, tag: nat)
    requires Destined(c, id, due, tag)
    ensures Destined(Arm(c, delay, run), id, due, tag)
  {
  }

  lemma {:induction false} PerformDestined(c: Clock, acts: seq<Act>, id: nat, due: real, tag: nat)
    requires Destined(c, id, due, tag)
    ensures Destined(Perform(c, acts), id, due, tag)
    decreases |acts|
  {
    hide Destined;
    if acts != [] {
      match acts[0]
      case Schedule(delay, run) =>
        ArmDestined(c, delay, run, id, due, tag);
        PerformDestined(Arm(c, delay, run), acts[1..], id, due, tag);
      case Cancel(cancelled) =>
        DisarmDestined(c, cancelled, id, due, tag);
        PerformDestined(Disarm(c, cancelled), acts[1..], id, due, tag);
    }
  }

  lemma StruckDestined(c: Clock, k: nat, id: nat, due: real, tag: nat)
    requires Destined(c, id, due, tag) && k < |c.timers|
    ensures Destined(Struck(c, k), id, due, tag)
  {
    var d := Struck(c, k);
    forall i | 0 <= i < |d.timers| && d.timers[i].id == id ensures d.timers[i].at == due && d.timers[i].run.tag == tag {
      assert d.timers[i] == c.timers[if i < k then i else i + 1];
    }
  }

  lemma {:induction false} SweepDestined(c: Clock, target: real, id: nat, due: real, tag: nat, size: nat)
    requires Destined(c, id, due, tag) && TotalSize(c.timers) <= size
    ensures Destined(Sweep(c, target), id, due, tag)
    decreases size
  {
    var k := Next(c.timers, target);
    if k.Some? {
      FireShrinks(c, k.value);
      var d := Fire(c, k.value);
      assert Sweep(c, target) == Sweep(d, target);
      assert d == Perform(Struck(c, k.value), c.timers[k.value].run.acts);
      hide Sweep, Fire, Perform, Struck, Destined;
      StruckDestined(c, k.value, id, due, tag);
      PerformDestined(Struck(c, k.value), c.timers[k.value].run.acts, id, due, tag);
      SweepDestined(d, target, id, due, tag, size - 1);
    }
  }

  lemma {:induction false} RunDestined(c: Clock, ops: seq<Op>, id: nat, due: real, tag: nat)
    requires Destined(c, id, due, tag)
    ensures Destined(DoAll(c, ops), id, due, tag)
    decreases |ops|
  {
    hide Destined;
    if ops != [] {
      match ops[0] {
        case ScheduleOp(delay, run) => ArmDestined(c, delay, run, id, due, tag);
        case CancelOp(cancelled) => DisarmDestined(c, cancelled, id, due, tag);
        case AdvanceOp(byMs) => SweepDestined(c, c.now + byMs, id, due, tag, TotalSize(c.timers));
      }
      RunDestined(Do(c, ops[0]), ops[1..], id, due, tag);
    }
  }

  ghost predicate Forward(ops: seq<Op>) {
    forall i :: 0 <= i < |ops| && ops[i].AdvanceOp? ==> ops[i].byMs >= 0.0
  }

  /** The instant a delay of `delay` asks for. */
  function DueAt(c: Clock, delay: real): real {
    if delay >= 0.0 then c.now + delay else c.now
  }

  lemma ScheduledDestined(c: Clock, delay: real, run: Callback)
    requires History(c)
    ensures Destined(Do(c, ScheduleOp(delay, run)), c.sequence, DueAt(c, delay), run.tag)
    ensures History(Do(c, ScheduleOp(delay, run)))
  {
    ArmKeeps(c, delay, run);
    hide Partition;
  }

  /** What has become of a timer due at `due`: it fires then or never, and by now it
      has if the clock has got there and nothing cancelled it. */
  ghost predicate Fated(t: Clock, id: nat, due: real, tag: nat) {
    && (forall i :: 0 <= i < |t.fired| && t.fired[i].id == id ==> t.fired[i] == Firing(due, id, tag))
    && (Went(t, id) <==> t.now >= due && id !in t.cancelled)
  }

  lemma DestinyDone(t: Clock, id: nat, due: real, tag: nat)
    requires Destined(t, id, due, tag) && History(t)
    requires forall i :: 0 <= i < |t.timers| ==> t.timers[i].at > t.now
    ensures Fated(t, id, due, tag)
  {
    assert Partition(t);
    assert Pending(t.timers, id) || Went(t, id) || id in t.cancelled;
  }

  lemma SweepHistory(c: Clock, target: real)
    requires History(c) && target >= c.now
    ensures History(Sweep(c, target))
    ensures forall i :: 0 <= i < |Sweep(c, target).timers| ==> Sweep(c, target).timers[i].at > Sweep(c, target).now
  {
    hide *;
    HistoryForms(c);
    SweepKeeps(c, target, TotalSize(c.timers));
    SweepArrives(c, target);
  }

  lemma SweepFates(u: Clock, target: real, id: nat, due: real, tag: nat)
    requires Destined(u, id, due, tag) && History(u) && target >= u.now
    ensures Fated(Sweep(u, target), id, due, tag)
  {
    hide *;
    SweepDestined(u, target, id, due, tag, TotalSize(u.timers));
    SweepHistory(u, target);
    DestinyDone(Sweep(u, target), id, due, tag);
  }

  lemma MoveFates(u: Clock, byMs: real, id: nat, due: real, tag: nat)
    requires Destined(u, id, due, tag) && History(u) && byMs >= 0.0
    ensures Fated(AdvanceBy(u, byMs), id, due, tag)
  {
    hide Destined, History, Fated, Sweep;
    SweepFates(u, u.now + byMs, id, due, tag);
  }

  /** Over every run of forward moves after a timer was scheduled, it fires at the
      instant its delay asked for and at no other, and the move that takes the clock
      there fires it unless it has been cancelled. */
  lemma FiresWhenDue(c: Clock, delay: real, run: Callback, ops: seq<Op>, byMs: real)
    requires History(c) && Forward(ops) && byMs >= 0.0
    ensures Fated(AdvanceBy(DoAll(Do(c, ScheduleOp(delay, run)), ops), byMs), c.sequence, DueAt(c, delay), run.tag)
  {
    ScheduledDestined(c, delay, run);
    hide Destined, History, Fated, Do, DoAll, AdvanceBy, DueAt;
    var s := Do(c, ScheduleOp(delay, run));
    RunDestined(s, ops, c.sequence, DueAt(c, delay), run.tag);
    RunsKeep(s, ops);
    MoveFates(DoAll(s, ops), byMs, c.sequence, DueAt(c, delay), run.tag);
  }

  // ------------------------------------------------------- timers nobody cancels

  /** Neither the callback nor any that it schedules cancels this timer. */
  predicate Spares(run: Callback, id: nat)
    decreases run
  {
    ActsSpare(run.acts, id)
  }

  predicate ActSpares(act: Act, id: nat)
    decreases act
  {
    match act
    case Schedule(_, run) => Spares(run, id)
    case Cancel(cancelled) => cancelled != id
  }

  predicate ActsSpare(acts: seq<Act>, id: nat)
    decreases acts
  {
    acts == [] || (ActSpares(acts[0], id) && ActsSpare(acts[1..], id))
  }

  /** The timer is not cancelled, and no pending callback will. */
  ghost predicate Safe(c: Clock, id: nat) {
    id !in c.cancelled && forall i :: 0 <= i < |c.timers| ==> Spares(c.timers[i].run, id)
  }

  predicate OpSpares(op: Op, id: nat) {
    match op
    case ScheduleOp(_, run) => Spares(run, id)
    case CancelOp(cancelled) => cancelled != id
    case AdvanceOp(_) => true
  }

  lemma DisarmSafe(c: Clock, cancelled: nat, id: nat)
    requires Safe(c, id) && cancelled != id
    ensures Safe(Disarm(c, cancelled), id)
  {
    var d := Disarm(c, cancelled);
    WithoutMembers(c.timers, cancelled);
    forall i | 0 <= i < |d.timers| ensures Spares(d.timers[i].run, id) {
      assert d.timers[i] in c.timers;
    }
  }

  lemma {:induction false} PerformSafe(c: Clock, acts: seq<Act>, id: nat)
    requires Safe(c, id) && ActsSpare(acts, id)
    ensures Safe(Perform(c, acts), id)
    decreases |acts|
  {
    if acts != [] {
      match acts[0]
      case Schedule(delay, run) =>
        assert Safe(Arm(c, delay, run), id);
        PerformSafe(Arm(c, delay, run), acts[1..], id);
      case Cancel(cancelled) =>
        DisarmSafe(c, cancelled, id);
        PerformSafe(Disarm(c, cancelled), acts[1..], id);
    }
  }

  lemma StruckSafe(c: Clock, k: nat, id: nat)
    requires Safe(c, id) && k < |c.timers|
    ensures Safe(Struck(c, k), id)
  {
    var d := Struck(c, k);
    forall i | 0 <= i < |d.timers| ensures Spares(d.timers[i].run, id) {
      assert d.timers[i] == c.timers[if i < k then i else i + 1];
    }
  }

  lemma {:induction false} SweepSafe(c: Clock, target: real, id: nat, size: nat)
    requires Safe(c, id) && TotalSize(c.timers) <= size
    ensures Safe(Sweep(c, target), id)
    decreases size
  {
    var k := Next(c.timers, target);
    if k.Some? {
      FireShrinks(c, k.value);
      var d := Fire(c, k.value);
      assert Sweep(c, target) == Sweep(d, target);
      assert d == Perform(Struck(c, k.value), c.timers[k.value].run.acts);
      assert Spares(c.timers[k.value].run, id);
      hide Sweep, Fire, Perform, Struck, Safe;
      StruckSafe(c, k.value, id);
      PerformSafe(Struck(c, k.value), c.timers[k.value].run.acts, id);
      SweepSafe(d, target, id, size - 1);
    }
  }

  lemma {:induction false} RunSafe(c: Clock, ops: seq<Op>, id: nat)
    requires Safe(c, id) && forall i :: 0 <= i < |ops| ==> OpSpares(ops[i], id)
    ensures Safe(DoAll(c, ops), id)
    decreases |ops|
  {
    if ops != [] {
      assert OpSpares(ops[0], id);
      match ops[0] {
        case ScheduleOp(delay, run) => assert Safe(Arm(c, delay, run), id);
        case CancelOp(cancelled) => DisarmSafe(c, cancelled, id);
        case AdvanceOp(byMs) => SweepSafe(c, c.now + byMs, id, TotalSize(c.timers));
      }
      assert forall i :: 0 <= i < |ops[1..]| ==> ops[1..][i] == ops[i + 1];
      hide Safe, Sweep;
      RunSafe(Do(c, ops[0]), ops[1..], id);
    }
  }

  /** So a timer that nothing cancels has fired, once and at its instant, exactly when
      the clock has reached it. */
  lemma UncancelledFires(c: Clock, delay: real, run: Callback, ops: seq<Op>, byMs: real)
    requires History(c) && Forward(ops) && byMs >= 0.0
    requires Spares(run, c.sequence) && forall i :: 0 <= i < |c.timers| ==> Spares(c.timers[i].run, c.sequence)
    requires forall i :: 0 <= i < |ops| ==> OpSpares(ops[i], c.sequence)
    ensures var t := AdvanceBy(DoAll(Do(c, ScheduleOp(delay, run)), ops), byMs);
            Firing(DueAt(c, delay), c.sequence, run.tag) in t.fired <==> t.now >= DueAt(c, delay)
  {
    FiresWhenDue(c, delay, run, ops, byMs);
    ScheduledSafe(c, delay, run);
    hide Safe, Do, DoAll, AdvanceBy, DueAt, Spares, OpSpares;
    var s := Do(c, ScheduleOp(delay, run));
    RunSafe(s, ops, c.sequence);
    MoveSafe(DoAll(s, ops), byMs, c.sequence);
    FatedFiring(AdvanceBy(DoAll(s, ops), byMs), c.sequence, DueAt(c, delay), run.tag);
  }

  lemma ScheduledSafe(c: Clock, delay: real, run: Callback)
    requires History(c)
    requires Spares(run, c.sequence) && forall i :: 0 <= i < |c.timers| ==> Spares(c.timers[i].run, c.sequence)
    ensures Safe(Do(c, ScheduleOp(delay, run)), c.sequence)
  {
    hide Formed, Spares;
  }

  lemma MoveSafe(u: Clock, byMs: real, id: nat)
    requires Safe(u, id)
    ensures id !in AdvanceBy(u, byMs).cancelled
  {
    SweepSafe(u, u.now + byMs, id, TotalSize(u.timers));
    hide Sweep, TotalSize;
  }

  lemma FatedFiring(t: Clock, id: nat, due: real, tag: nat)
    requires Fated(t, id, due, tag) && id !in t.cancelled
    ensures Firing(due, id, tag) in t.fired <==> t.now >= due
  {
    if Went(t, id) {
      var i :| 0 <= i < |t.fired| && t.fired[i].id == id;
      assert t.fired[i] in t.fired;
    }
  }

  // --------------------------------------------------------------- the clock

  class ManualRuntimeClock {
    var current: real
    var sequence: nat
    var timers: seq<Timer>
    ghost var fired: seq<Firing>
    ghost var cancelled: set<nat>

    ghost function State(): Clock
      reads this
    {
      Clock(current, sequence, timers, fired, cancelled)
    }

    constructor (start: real)
      ensures State() == Opened(start)
    {
      current, sequence, timers, fired, cancelled := start, 0, [], [], {};
    }

    method Schedule(delayMs: real, run: Callback) returns (id: nat)
      modifies this
      ensures State() == Arm(old(State()), delayMs, run) && id == old(sequence)
      ensures timers == old(timers) + [Timer(id, DueAt(old(State()), delayMs), run)] && sequence == id + 1
    {
      id := sequence;
      sequence := sequence + 1;
      var wait := if delayMs > 0.0 then delayMs else 0.0;
      timers := timers + [Timer(id, current + wait, run)];
    }

    /** The cancel handle: safe more than once and after the timer has fired. */
    method Cancel(id: nat)
      modifies this`timers, this`cancelled
      ensures State() == Disarm(old(State()), id)
      ensures !Pending(old(timers), id) ==> timers == old(timers)
    {
      WithoutAbsent(timers, id);
      var all, kept := timers, [];
      for i := 0 to |all|
        invariant kept == Without(all[..i], id) && cancelled == old(cancelled)
      {
        assert all[..i + 1] == all[..i] + [all[i]];
        WithoutAppend(all[..i], all[i], id);
        if all[i].id != id {
          kept := kept + [all[i]];
        }
      }
      assert all[..|all|] == all;
      timers := kept;
      cancelled := if Pending(all, id) then cancelled + {id} else cancelled;
    }

    method RunCallback(acts: seq<Act>)
      modifies this
      ensures State() == Perform(old(State()), acts)
    {
      var i := 0;
      while i < |acts|
        invariant 0 <= i <= |acts|
        invariant Perform(State(), acts[i..]) == Perform(old(State()), acts)
      {
        match acts[i] {
          case Schedule(delay, run) => var _ := Schedule(delay, run);
          case Cancel(id) => Cancel(id);
        }
        i := i + 1;
      }
    }

    method EarliestDue(target: real) returns (k: Option<nat>)
      ensures k == Next(timers, target)
    {
      k := None;
      for i := 0 to |timers|
        invariant k == Next(timers[..i], target)
      {
        assert timers[..i + 1][..i] == timers[..i];
        if timers[i].at <= target && (k.None? || timers[i].at < timers[k.value].at) {
          k := Some(i);
        }
      }
      assert timers[..|timers|] == timers;
    }

    /** Moves time forward and fires whatever that reaches. */
    method Advance(byMs: real)
      modifies this
      ensures State() == AdvanceBy(old(State()), byMs)
    {
      hide Next, Perform, TotalSize;
      var target := current + byMs;
      while true
        invariant Sweep(State(), target) == Sweep(old(State()), target)
        decreases TotalSize(timers)
      {
        var k := EarliestDue(target);
        if k.None? {
          break;
        }
        FireShrinks(State(), k.value);
        var timer := timers[k.value];
        timers := timers[..k.value] + timers[k.value + 1..];
        current := timer.at;
        fired := fired + [Firing(timer.at, timer.id, timer.run.tag)];
        RunCallback(timer.run.acts);
      }
      current := target;
    }
  }

  lemma {:induction false} WithoutAbsent(timers: seq<Timer>, id: nat)
    ensures !Pending(timers, id) ==> Without(timers, id) == timers
  {
    if timers != [] && !Pending(timers, id) {
      assert timers[0].id != id;
      assert forall i :: 0 <= i < |timers[1..]| ==> timers[1..][i] == timers[i + 1];
      WithoutAbsent(timers[1..], id);
    }
  }

  lemma {:induction false} WithoutAppend(timers: seq<Timer>, t: Timer, id: nat)
    ensures Without(timers + [t], id) == Without(timers, id) + (if t.id == id then [] else [t])
  {
    if timers != [] {
      assert (timers + [t])[1..] == timers[1..] + [t];
      WithoutAppend(timers[1..], t, id);
    }
  }
}
