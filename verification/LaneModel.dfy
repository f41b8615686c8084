/**
 One bounded FIFO lane: a submission starts now, waits in a queue with a fixed
 ceiling, or is refused.

 `Lane` is the lane's whole state as a value, together with the history of its
 submissions; every method of the class `AdmissionLane` is proved to compute
 the step function of the same name on that value.  One run-to-completion block
 of the program (a submission, a settled task, a fired signal, a stop) is one
 step.
 */
module LaneModel {
  import opened Wrappers
  import opened Submissions

  datatype Capacity = Capacity(concurrency: nat, queueDepth: nat)

  datatype Lane = Lane(
    capacity: Capacity,
    accepting: bool,
    active: nat,
    queue: seq<Entry<()>>,
    settled: set<nat>,        // the per-entry flags
    aborted: set<nat>,        // the signals that have fired
    ledger: Ledger<()>)

  datatype Event =
    | Submit(signal: Option<nat>)
    | Settle(id: nat)
    | Abort(fired: nat)
    | Stop

  // -------------------------------------------------------------- the steps

  predicate InRange(s: Lane) {
    forall i :: 0 <= i < |s.queue| ==> s.queue[i].id < |s.ledger.subs|
  }

  function Open(capacity: Capacity): Lane {
    Lane(capacity, true, 0, [], {}, {}, Ledger([], []))
  }

  function Record(s: Lane, fate: Fate): Lane {
    s.(ledger := Enter(s.ledger, (), fate))
  }

  function Start(s: Lane, id: nat): Lane
    requires id < |s.ledger.subs|
  {
    s.(active := s.active + 1, ledger := Begin(s.ledger, id))
  }

  function Run(s: Lane, signal: Option<nat>): Lane {
    var id := |s.ledger.subs|;
    if !s.accepting then Record(s, Closed)
    else if Fired(signal, s.aborted) then Record(s, CancelledAtEntry)
    else if s.active < s.capacity.concurrency then Start(Record(s, Waiting), id)
    else if |s.queue| >= s.capacity.queueDepth then Record(s, Refused)
    else Record(s, Waiting).(queue := s.queue + [Entry(id, (), signal)])
  }

  function DrainOne(s: Lane): Lane
    requires InRange(s)
    decreases |s.queue|
  {
    if !s.accepting || s.active >= s.capacity.concurrency || s.queue == [] then s
    else
      var id := s.queue[0].id;
      var rest := s.(queue := s.queue[1..]);
      if id in s.settled then DrainOne(rest)
      else Start(rest.(settled := s.settled + {id}), id)
  }

  function Settled(s: Lane, id: nat): Lane
    requires InRange(s) && id < |s.ledger.subs| && s.active > 0
  {
    DrainOne(s.(active := s.active - 1, ledger := Mark(s.ledger, id, Finished)))
  }

  function HeldBy(s: Lane): Held<()> {
    Held(s.queue, s.settled, s.ledger)
  }

  function WithHeld(s: Lane, h: Held<()>): Lane {
    s.(queue := h.queue, settled := h.settled, ledger := h.ledger)
  }

  ghost function Aborted(s: Lane, signal: nat): Lane {
    WithHeld(s.(aborted := s.aborted + {signal}), Cancelled(HeldBy(s), signal))
  }

  ghost function Stopped(s: Lane): Lane {
    var ids := Ids(s.queue);
    s.(accepting := false,
       queue := [],
       settled := s.settled + ids,
       ledger := MarkAll(s.ledger, ids, ClosedWaiting))
  }

  predicate Idle(s: Lane) { s.active == 0 && s.queue == [] }

  // ----------------------------------------------------------- the invariant

  /** The queue, the flags and the slots in use agree with the history. */
  ghost predicate Books(l: Ledger<()>, queue: seq<Entry<()>>, settled: set<nat>, aborted: set<nat>, active: nat) {
    && Sound(l)
    && Tracks(l, queue, ())
    && (forall i :: 0 <= i < |queue| ==> queue[i].id !in settled && !Fired(queue[i].signal, aborted))
    && active == |With(l, Running)|
    && (forall id :: id in settled ==> id < |l.subs|)
  }

  ghost predicate Base(s: Lane) {
    && Books(s.ledger, s.queue, s.settled, s.aborted, s.active)
    && s.active <= s.capacity.concurrency
    && |s.queue| <= s.capacity.queueDepth
  }

  /** The state between two steps: nothing waits while a slot is free, and a
      stopped lane has nothing waiting. */
  ghost predicate Inv(s: Lane) {
    && Base(s)
    && (s.accepting && s.queue != [] ==> s.active == s.capacity.concurrency)
    && (!s.accepting ==> s.queue == [])
  }

  lemma OpenInv(capacity: Capacity)
    ensures Inv(Open(capacity))
  {
    assert With(Open(capacity).ledger, Running) == {};
  }

  lemma StartCounts(l: Ledger<()>, id: nat)
    requires id < |l.subs| && l.subs[id].fate.Waiting?
    ensures |With(Begin(l, id), Running)| == |With(l, Running)| + 1
  {
    MarkCounts(l, id, Running);
    assert With(Begin(l, id), Running) == With(Mark(l, id, Running), Running);
  }

  lemma EnterAlone(l: Ledger<()>)
    requires Sound(l) && Tracks(l, [], ())
    ensures Tracks(Enter(l, (), Waiting), [Entry(|l.subs|, (), None)], ())
  {
    hide Sound, Tracks;
    EnterQueues(l, [], (), None);
    assert [] + [Entry(|l.subs|, (), None)] == [Entry(|l.subs|, (), None)];
  }

  lemma BeginAlone(l: Ledger<()>, id: nat)
    requires Sound(l) && Tracks(l, [Entry(id, (), None)], ())
    ensures id < |l.subs| && l.subs[id] == Submission((), Waiting)
    ensures Tracks(Begin(l, id), [], ())
  {
    hide Sound;
    var only := [Entry(id, (), None)];
    assert only[0].id == id && only[1..] == [];
    hide Tracks;
    BeginTracks(l, only, ());
  }

  lemma StartFreshLedger(l: Ledger<()>, queue: seq<Entry<()>>)
    requires Sound(l) && Tracks(l, queue, ()) && queue == []
    ensures var m := Begin(Enter(l, (), Waiting), |l.subs|);
            Sound(m) && Evolves(l, m) && Tracks(m, [], ()) && |With(m, Running)| == |With(l, Running)| + 1
  {
    var id := |l.subs|;
    var w := Enter(l, (), Waiting);
    assert With(w, Running) == With(l, Running);
    StartCounts(w, id);
    hide Sound, Evolves, Tracks, With;
    EnterAlone(l);
    EnterKeeps(l, (), Waiting);
    BeginAlone(w, id);
    BeginFirst(w, id);
    EvolvesTransitive(l, w, Begin(w, id));
  }

  lemma BeginFirst(l: Ledger<()>, id: nat)
    requires Sound(l) && Tracks(l, [Entry(id, (), None)], ()) && id < |l.subs| && l.subs[id] == Submission((), Waiting)
    ensures Sound(Begin(l, id)) && Evolves(l, Begin(l, id))
  {
    hide Sound, Evolves;
    BeginKeeps(l, id);
  }

  lemma StartFreshKeeps(s: Lane, signal: Option<nat>)
    requires Base(s) && s.queue == [] && s.active < s.capacity.concurrency
    ensures var t := Start(Record(s, Waiting), |s.ledger.subs|);
            Inv(t) && Evolves(s.ledger, t.ledger)
  {
    hide Sound, Evolves, Tracks;
    StartFreshLedger(s.ledger, s.queue);
  }

  lemma RecordKeeps(s: Lane, fate: Fate)
    requires Inv(s) && !fate.Started() && !fate.Waiting?
    ensures Inv(Record(s, fate)) && Evolves(s.ledger, Record(s, fate).ledger)
  {
    EnterKeeps(s.ledger, (), fate);
    EnterTracks(s.ledger, s.queue, (), (), fate);
    assert With(Record(s, fate).ledger, Running) == With(s.ledger, Running);
  }

  lemma QueueKeeps(s: Lane, signal: Option<nat>)
    requires Inv(s) && s.accepting && !Fired(signal, s.aborted)
    requires s.active >= s.capacity.concurrency && |s.queue| < s.capacity.queueDepth
    ensures Inv(Run(s, signal)) && Evolves(s.ledger, Run(s, signal).ledger)
  {
    EnterKeeps(s.ledger, (), Waiting);
    EnterQueues(s.ledger, s.queue, (), signal);
    assert With(Run(s, signal).ledger, Running) == With(s.ledger, Running);
  }

  lemma RunKeeps(s: Lane, signal: Option<nat>)
    requires Inv(s)
    ensures Inv(Run(s, signal)) && Evolves(s.ledger, Run(s, signal).ledger)
  {
    hide Books;
    if !s.accepting {
      RecordKeeps(s, Closed);
    } else if Fired(signal, s.aborted) {
      RecordKeeps(s, CancelledAtEntry);
    } else if s.active < s.capacity.concurrency {
      StartFreshKeeps(s, signal);
    } else if |s.queue| >= s.capacity.queueDepth {
      RecordKeeps(s, Refused);
    } else {
      QueueKeeps(s, signal);
    }
  }

  lemma BooksRange(s: Lane)
    requires Base(s)
    ensures InRange(s)
  {
  }

  lemma PromoteKeeps(s: Lane)
    requires Base(s) && s.queue != []
    ensures s.queue[0].id < |s.ledger.subs| && s.queue[0].id !in s.settled
    ensures var l := Begin(s.ledger, s.queue[0].id);
            Books(l, s.queue[1..], s.settled + {s.queue[0].id}, s.aborted, s.active + 1) && Evolves(s.ledger, l)
  {
    BeginTracks(s.ledger, s.queue, ());
    BeginKeeps(s.ledger, s.queue[0].id);
    StartCounts(s.ledger, s.queue[0].id);
    hide Sound, Evolves;
  }

  /** With the base invariant, draining starts exactly the oldest waiting entry
      whenever there is room; the branch that skips a settled entry is never taken. */
  lemma DrainOneKeeps(s: Lane)
    requires Base(s) && (!s.accepting ==> s.queue == [])
    requires s.accepting && s.queue != [] ==> s.active + 1 >= s.capacity.concurrency
    ensures InRange(s)
    ensures Inv(DrainOne(s)) && Evolves(s.ledger, DrainOne(s).ledger)
    ensures s.accepting && s.active < s.capacity.concurrency && s.queue != []
            ==> DrainOne(s).ledger.order == s.ledger.order + [s.queue[0].id] && DrainOne(s).queue == s.queue[1..]
  {
    BooksRange(s);
    hide Books;
    if s.accepting && s.active < s.capacity.concurrency && s.queue != [] {
      PromoteKeeps(s);
    }
  }

  lemma FinishBooks(s: Lane, id: nat)
    requires Base(s) && id < |s.ledger.subs| && s.ledger.subs[id].fate.Running?
    ensures s.active > 0
    ensures Books(Mark(s.ledger, id, Finished), s.queue, s.settled, s.aborted, s.active - 1)
    ensures Evolves(s.ledger, Mark(s.ledger, id, Finished))
  {
    FinishKeeps(s.ledger, id);
    FinishTracks(s.ledger, s.queue, (), id);
    hide Sound, Tracks, Evolves;
    MarkCounts(s.ledger, id, Finished);
  }

  lemma SettledKeeps(s: Lane, id: nat)
    requires Inv(s) && id < |s.ledger.subs| && s.ledger.subs[id].fate.Running?
    ensures InRange(s) && s.active > 0
    ensures Inv(Settled(s, id)) && Evolves(s.ledger, Settled(s, id).ledger)
  {
    hide Books, Evolves;
    BooksRange(s);
    FinishBooks(s, id);
    var t := s.(active := s.active - 1, ledger := Mark(s.ledger, id, Finished));
    DrainOneKeeps(t);
    EvolvesTransitive(s.ledger, t.ledger, Settled(s, id).ledger);
  }

  lemma AbortedLedger(l: Ledger<()>, queue: seq<Entry<()>>, signal: nat)
    requires Sound(l) && Tracks(l, queue, ())
    ensures var m := MarkAll(l, SignalledIds(queue, signal), CancelledWaiting);
            && Sound(m) && Evolves(l, m) && Tracks(m, Unsignalled(queue, signal), ())
            && With(m, Running) == With(l, Running)
    ensures forall id :: id in SignalledIds(queue, signal) ==> id < |l.subs|
  {
    SignalledExactly(queue, signal);
    DropKeeps(l, SignalledIds(queue, signal), CancelledWaiting);
    CancelTracks(l, queue, (), signal, SignalledIds(queue, signal));
  }

  lemma AbortedBooks(s: Lane, signal: nat)
    requires Base(s)
    ensures var t := Aborted(s, signal);
            Books(t.ledger, t.queue, t.settled, t.aborted, t.active) && Evolves(s.ledger, t.ledger)
  {
    AbortedLedger(s.ledger, s.queue, signal);
    UnsignalledMembers(s.queue, signal);
    SignalledUntouched(s.queue, signal);
    hide Sound, Tracks, Evolves;
    var q := Unsignalled(s.queue, signal);
    forall i | 0 <= i < |q|
      ensures q[i].id !in s.settled + SignalledIds(s.queue, signal) && !Fired(q[i].signal, s.aborted + {signal})
    {
      assert q[i] in q && q[i] in s.queue && q[i].signal != Some(signal);
    }
  }

  lemma AbortedKeeps(s: Lane, signal: nat)
    requires Inv(s)
    ensures Inv(Aborted(s, signal)) && Evolves(s.ledger, Aborted(s, signal).ledger)
  {
    hide Books, Evolves;
    AbortedBooks(s, signal);
    UnsignalledMembers(s.queue, signal);
  }

  lemma QueueInRange(s: Lane)
    requires Inv(s)
    ensures InRange(s) && Sorted(s.queue) && Unsettled(s.queue, HeldBy(s))
  {
  }

  lemma StoppedKeeps(s: Lane)
    requires Inv(s)
    ensures Inv(Stopped(s)) && Evolves(s.ledger, Stopped(s).ledger)
  {
    var ids := Ids(s.queue);
    DropKeeps(s.ledger, ids, ClosedWaiting);
    CloseTracks(s.ledger, s.queue, (), ids);
    hide Sound, Tracks, Evolves;
    assert With(Stopped(s).ledger, Running) == With(s.ledger, Running);
  }

  // -------------------------------------------------------------------- runs

  predicate Enabled(s: Lane, e: Event) {
    e.Settle? ==> e.id < |s.ledger.subs| && s.ledger.subs[e.id].fate.Running?
  }

  ghost function Step(s: Lane, e: Event): Lane
    requires Inv(s) && Enabled(s, e)
  {
    match e
    case Submit(signal) => Run(s, signal)
    case Settle(id) => SettledKeeps(s, id); Settled(s, id)
    case Abort(fired) => Aborted(s, fired)
    case Stop => Stopped(s)
  }

  lemma DrainCapacity(s: Lane)
    requires InRange(s)
    ensures DrainOne(s).capacity == s.capacity
    decreases |s.queue|
  {
  }

  lemma StepKeeps(s: Lane, e: Event)
    requires Inv(s) && Enabled(s, e)
    ensures Inv(Step(s, e)) && Evolves(s.ledger, Step(s, e).ledger) && Step(s, e).capacity == s.capacity
  {
    hide Books, Evolves;
    match e
    case Submit(signal) => RunKeeps(s, signal);
    case Settle(id) => SettledKeeps(s, id); DrainCapacity(s.(active := s.active - 1, ledger := Mark(s.ledger, id, Finished)));
    case Abort(fired) => AbortedKeeps(s, fired);
    case Stop => StoppedKeeps(s);
  }

  /** `es` is a run of the lane from `s` ending in `t`. */
  ghost predicate Reaches(s: Lane, es: seq<Event>, t: Lane)
    requires Inv(s)
    decreases |es|
  {
    if es == [] then s == t
    else
      && Enabled(s, es[0])
      && (StepKeeps(s, es[0]); Reaches(Step(s, es[0]), es[1..], t))
  }

  /** Over every run: the invariant holds at the end, and no submission is ever
      settled twice: a fate once final stays what it was. */
  lemma {:induction false} RunsKeep(s: Lane, es: seq<Event>, t: Lane)
    requires Inv(s) && Reaches(s, es, t)
    ensures Inv(t) && Evolves(s.ledger, t.ledger) && t.capacity == s.capacity
    decreases |es|
  {
    hide Books, Evolves;
    EvolvesSelf(s.ledger);
    if es != [] {
      StepKeeps(s, es[0]);
      RunsKeep(Step(s, es[0]), es[1..], t);
      EvolvesTransitive(s.ledger, Step(s, es[0]).ledger, t.ledger);
    }
  }

  // ------------------------------------------------------------- the promises

  /** A lane has only one kind of work, so the order within a kind is the whole order. */
  lemma OneKind(l: Ledger<()>)
    ensures forall i :: 0 <= i < |l.subs| ==> l.subs[i].kind == ()
  {
    forall i | 0 <= i < |l.subs| ensures l.subs[i].kind == ()
    {
      match l.subs[i].kind case () =>
    }
  }

  /** From an opened lane, tasks start in submission order and none of them came
      after an entry that still waits; slots and queue stay within capacity; and
      an accepting lane with something waiting has every slot in use. */
  lemma NoOvertaking(capacity: Capacity, es: seq<Event>, t: Lane)
    requires (OpenInv(capacity); Reaches(Open(capacity), es, t))
    ensures forall i, j :: 0 <= i < j < |t.ledger.order| ==> t.ledger.order[i] < t.ledger.order[j]
    ensures forall i, k :: 0 <= i < |t.ledger.order| && 0 <= k < |t.queue| ==> t.ledger.order[i] < t.queue[k].id
    ensures t.active <= capacity.concurrency && |t.queue| <= capacity.queueDepth
    ensures t.accepting && t.queue != [] ==> t.active == capacity.concurrency
  {
    OpenInv(capacity);
    RunsKeep(Open(capacity), es, t);
    OneKind(t.ledger);
  }

  /** A submission starts at once only when nothing waits, and is refused for
      capacity only when every slot and every queue place is taken. */
  lemma AdmissionExactly(s: Lane, signal: Option<nat>)
    requires Inv(s)
    ensures var id := |s.ledger.subs|; var fate := Run(s, signal).ledger.subs[id].fate;
            && (fate.Running? ==> s.queue == [])
            && (fate.Refused? <==> s.accepting && !Fired(signal, s.aborted)
                                   && s.active == s.capacity.concurrency && |s.queue| == s.capacity.queueDepth)
            && (fate.Closed? <==> !s.accepting)
            && (fate.CancelledAtEntry? <==> s.accepting && Fired(signal, s.aborted))
            && (fate.Waiting? <==> HasId(Run(s, signal).queue, id))
            && (fate.Refused? || fate.Closed? || fate.CancelledAtEntry? || fate.Waiting? || fate.Running?)
  {
    RunKeeps(s, signal);
    var t := Run(s, signal);
    var id := |s.ledger.subs|;
    if t.ledger.subs[id].fate.Waiting? {
      assert t.ledger.subs[id] == Submission((), Waiting);
    }
  }

  /** A fired signal cancels the submissions that wait under it, a stop closes all
      that wait, and neither touches any other. */
  lemma EndsExactly(s: Lane, fired: nat, id: nat)
    requires Inv(s) && id < |s.ledger.subs|
    ensures Step(s, Abort(fired)).ledger.subs[id].fate
            == if WaitsUnder(s.queue, id, fired) then CancelledWaiting else s.ledger.subs[id].fate
    ensures Step(s, Stop).ledger.subs[id].fate
            == if s.ledger.subs[id].fate.Waiting? then ClosedWaiting else s.ledger.subs[id].fate
  {
    SignalledWaits(s.queue, id, fired);
    WaitingIsQueue(s);
    assert id in With(s.ledger, Waiting) <==> s.ledger.subs[id].fate.Waiting?;
    hide Inv, WaitsUnder;
  }

  /** Every submission is in exactly one place, and the places add up: those
      refused, closed, cancelled, waiting (the queue's length), running (the
      slots in use) and finished. */
  lemma Conservation(s: Lane)
    requires Inv(s)
    ensures |s.ledger.subs| == |With(s.ledger, Refused)| + |With(s.ledger, Closed)| + |With(s.ledger, CancelledAtEntry)|
                               + |With(s.ledger, CancelledWaiting)| + |With(s.ledger, ClosedWaiting)|
                               + |s.queue| + s.active + |With(s.ledger, Finished)|
    ensures |s.ledger.order| == s.active + |With(s.ledger, Finished)|
  {
    FatesPartition(s.ledger);
    OneKind(s.ledger);
    WaitingIsQueue(s);
    OrderCounts(s.ledger);
  }

  lemma WaitingIsQueue(s: Lane)
    requires Inv(s)
    ensures With(s.ledger, Waiting) == Ids(s.queue) && |With(s.ledger, Waiting)| == |s.queue|
  {
    SortedIds(s.queue);
    OneKind(s.ledger);
    forall id | id in With(s.ledger, Waiting) ensures id in Ids(s.queue)
    {
      assert s.ledger.subs[id] == Submission((), Waiting);
      var i :| 0 <= i < |s.queue| && s.queue[i].id == id;
      assert s.queue[i] in s.queue;
    }
    forall id | id in Ids(s.queue) ensures id in With(s.ledger, Waiting)
    {
      var e :| e in s.queue && e.id == id;
    }
  }

  lemma OrderCounts(l: Ledger<()>)
    requires Sound(l)
    ensures |l.order| == |With(l, Running)| + |With(l, Finished)|
  {
    StartedAre(l);
    OrderDistinct(l);
    hide Sound, Elements;
    DistinctCount(l.order);
    assert With(l, Running) !! With(l, Finished);
  }

  lemma StartedAre(l: Ledger<()>)
    requires Sound(l)
    ensures Elements(l.order) == With(l, Running) + With(l, Finished)
  {
  }

  lemma OrderDistinct(l: Ledger<()>)
    requires Sound(l)
    ensures forall i, j :: 0 <= i < j < |l.order| ==> l.order[i] != l.order[j]
  {
    OneKind(l);
  }

  ghost function Elements(xs: seq<nat>): set<nat> {
    set x | x in xs
  }

  lemma {:induction false} DistinctCount(xs: seq<nat>)
    requires forall i, j :: 0 <= i < j < |xs| ==> xs[i] != xs[j]
    ensures |Elements(xs)| == |xs|
  {
    if xs != [] {
      var n := |xs| - 1;
      DistinctCount(xs[..n]);
      assert xs == xs[..n] + [xs[n]];
      assert Elements(xs) == Elements(xs[..n]) + {xs[n]};
    } else {
      assert Elements(xs) == {};
    }
  }

  /** A stopped lane stays stopped: over every further run nothing starts, the
      queue stays empty, and the slots in use only go down. */
  lemma {:induction false} StoppedForever(s: Lane, es: seq<Event>, t: Lane)
    requires Inv(s) && !s.accepting && Reaches(s, es, t)
    ensures Inv(t) && !t.accepting && t.queue == [] && t.active <= s.active && t.ledger.order == s.ledger.order
    ensures Idle(s) ==> Idle(t)
    decreases |es|
  {
    if es != [] {
      StepKeeps(s, es[0]);
      StoppedForever(Step(s, es[0]), es[1..], t);
    }
  }
}
