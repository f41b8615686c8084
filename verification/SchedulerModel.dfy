/**
 The arbiter of one shared embedding session, as a state machine.

 Two bounded queues (Resolve and background), a concurrency limit, request-wide
 Resolve reservations, one cancellable promotion timer and an event-loop sampler
 that can hold background work back.  A state holds the fields of the program's
 scheduler, the clock reading, the signals that have fired and the history of
 submissions.  An armed timer is the instant it is due.
 */
module SchedulerModel {
  import opened Wrappers
  import opened Submissions

  datatype Priority = Resolve | Background

  datatype Profile = Profile(
    concurrency: nat,
    resolveQueueDepth: nat,
    backgroundQueueDepth: nat,
    quietMs: real,     // after the last Resolve activity
    yieldMs: real,     // between background calls
    sampleMs: real,
    warningMs: real)

  /** The limits the constructor accepts. */
  predicate ProfileValid(p: Profile) {
    && p.concurrency >= 1 && p.resolveQueueDepth >= 1 && p.backgroundQueueDepth >= 1
    && p.quietMs >= 1.0 && p.yieldMs >= 1.0 && p.sampleMs >= 1.0 && p.warningMs >= 1.0
    && p.warningMs < p.sampleMs
  }

  datatype Scheduler = Scheduler(
    profile: Profile,
    accepting: bool,
    active: nat,
    resolveQueue: seq<Entry<Priority>>,
    backgroundQueue: seq<Entry<Priority>>,
    resolveStarts: nat,
    backgroundStarts: nat,
    reservations: nat,
    lag: real,
    sample: Option<real>,
    promotion: Option<real>,
    settled: set<nat>,
    aborted: set<nat>,
    now: real,
    ledger: Ledger<Priority>)

  datatype Event =
    | Submit(priority: Priority, signal: Option<nat>)
    | Settle(id: nat)
    | Abort(fired: nat)
    | PromotionDue
    | SampleDue
    | EnterScope
    | ExitScope
    | StartMonitoring
    | Stop
    | Pass(to: real)

  // --------------------------------------------------------------- the steps

  predicate Suppressed(s: Scheduler) {
    s.lag > s.profile.warningMs
  }

  predicate InRange(s: Scheduler) {
    && (forall i :: 0 <= i < |s.resolveQueue| ==> s.resolveQueue[i].id < |s.ledger.subs|)
    && (forall i :: 0 <= i < |s.backgroundQueue| ==> s.backgroundQueue[i].id < |s.ledger.subs|)
  }

  function Open(profile: Profile, now: real): Scheduler {
    Scheduler(profile, true, 0, [], [], 0, 0, 0, 0.0, None, None, {}, {}, now, Ledger([], []))
  }

  function SchedulePromotion(s: Scheduler, delayMs: real): Scheduler {
    if !s.accepting || s.backgroundQueue == [] || s.promotion.Some? then s
    else s.(promotion := Some(s.now + delayMs))
  }

  function CancelPromotion(s: Scheduler): Scheduler {
    s.(promotion := None)
  }

  function Start(s: Scheduler, priority: Priority, id: nat): Scheduler
    requires id < |s.ledger.subs|
  {
    s.(active := s.active + 1,
       resolveStarts := if priority.Resolve? then s.resolveStarts + 1 else s.resolveStarts,
       backgroundStarts := if priority.Background? then s.backgroundStarts + 1 else s.backgroundStarts,
       ledger := Begin(s.ledger, id))
  }

  function Record(s: Scheduler, priority: Priority, fate: Fate): Scheduler {
    s.(ledger := Enter(s.ledger, priority, fate))
  }

  function Run(s: Scheduler, priority: Priority, signal: Option<nat>): Scheduler {
    if !s.accepting then Record(s, priority, Closed)
    else if Fired(signal, s.aborted) then Record(s, priority, CancelledAtEntry)
    else if priority.Resolve? then RunResolve(CancelPromotion(s), signal)
    else RunBackground(s, signal)
  }

  function RunResolve(s: Scheduler, signal: Option<nat>): Scheduler {
    var id := |s.ledger.subs|;
    if s.active < s.profile.concurrency then Start(Record(s, Resolve, Waiting), Resolve, id)
    else if |s.resolveQueue| >= s.profile.resolveQueueDepth then Record(s, Resolve, Refused)
    else Record(s, Resolve, Waiting).(resolveQueue := s.resolveQueue + [Entry(id, Resolve, signal)])
  }

  function RunBackground(s: Scheduler, signal: Option<nat>): Scheduler {
    var id := |s.ledger.subs|;
    if |s.backgroundQueue| >= s.profile.backgroundQueueDepth then Record(s, Background, Refused)
    else
      SchedulePromotion(
        Record(s, Background, Waiting).(backgroundQueue := s.backgroundQueue + [Entry(id, Background, signal)]),
        s.profile.yieldMs)
  }

  /** Takes an entry off its queue: an entry already settled or whose signal has
      fired is dropped, any other is started. */
  function Promote(s: Scheduler, e: Entry<Priority>): Scheduler
    requires e.id < |s.ledger.subs|
  {
    var flagged := s.(settled := s.settled + {e.id});
    if e.id in s.settled then s
    else if Fired(e.signal, s.aborted) then flagged.(ledger := Mark(s.ledger, e.id, CancelledWaiting))
    else Start(flagged, e.kind, e.id)
  }

  function TakeResolve(s: Scheduler): Scheduler
    requires InRange(s) && s.resolveQueue != []
  {
    Promote(s.(resolveQueue := s.resolveQueue[1..]), s.resolveQueue[0])
  }

  function TakeBackground(s: Scheduler): Scheduler
    requires InRange(s) && s.backgroundQueue != []
  {
    Promote(s.(backgroundQueue := s.backgroundQueue[1..]), s.backgroundQueue[0])
  }

  /** What keeps background work from starting once no Resolve work waits. */
  predicate Withheld(s: Scheduler) {
    s.reservations > 0 || s.promotion.Some? || Suppressed(s)
  }

  function Fill(s: Scheduler): Scheduler
    requires InRange(s)
    decreases |s.resolveQueue| + |s.backgroundQueue|
  {
    if s.active >= s.profile.concurrency then s
    else if s.resolveQueue != [] then Fill(TakeResolve(s))
    else if Withheld(s) || s.backgroundQueue == [] then s
    else Fill(TakeBackground(s))
  }

  function Drain(s: Scheduler): Scheduler
    requires InRange(s)
  {
    if !s.accepting then s else Fill(s)
  }

  /** The block that runs when the operation of `id` settles. */
  function Settled(s: Scheduler, id: nat): Scheduler
    requires InRange(s) && id < |s.ledger.subs| && s.active > 0
  {
    var priority := s.ledger.subs[id].kind;
    var t := s.(active := s.active - 1, ledger := Mark(s.ledger, id, Finished));
    if t.resolveQueue != [] then Drain(t)
    else if t.backgroundQueue != [] then
      SchedulePromotion(t, if priority.Resolve? then t.profile.quietMs else t.profile.yieldMs)
    else t
  }

  ghost function Aborted(s: Scheduler, signal: nat): Scheduler {
    var r := Cancelled(Held(s.resolveQueue, s.settled, s.ledger), signal);
    var b := Cancelled(Held(s.backgroundQueue, r.settled, r.ledger), signal);
    s.(aborted := s.aborted + {signal}, resolveQueue := r.queue, backgroundQueue := b.queue,
       settled := b.settled, ledger := b.ledger)
  }

  function PromotionFired(s: Scheduler): Scheduler
    requires InRange(s)
  {
    Drain(s.(promotion := None))
  }

  function ArmSample(s: Scheduler): Scheduler {
    s.(sample := Some(s.now + s.profile.sampleMs))
  }

  function SampleFired(s: Scheduler): Scheduler
    requires InRange(s) && s.sample.Some?
  {
    var late := s.now - s.sample.value;
    var t := s.(sample := None);
    if !s.accepting then t
    else ArmSample(Drain(t.(lag := if late > 0.0 then late else 0.0)))
  }

  function Entered(s: Scheduler): Scheduler {
    CancelPromotion(s).(reservations := s.reservations + 1)
  }

  function Exited(s: Scheduler): Scheduler
    requires s.reservations > 0
  {
    var t := s.(reservations := s.reservations - 1);
    if t.reservations == 0 then SchedulePromotion(CancelPromotion(t), t.profile.quietMs) else t
  }

  function Monitored(s: Scheduler): Scheduler {
    if !s.accepting || s.sample.Some? then s else ArmSample(s)
  }

  ghost function Stopped(s: Scheduler): Scheduler {
    if !s.accepting then s
    else
      var ids := Ids(s.resolveQueue) + Ids(s.backgroundQueue);
      s.(accepting := false, sample := None, promotion := None, resolveQueue := [], backgroundQueue := [],
         settled := s.settled + ids, ledger := MarkAll(s.ledger, ids, ClosedWaiting))
  }

  // ----------------------------------------------------------- the invariant

  ghost predicate Live(queue: seq<Entry<Priority>>, settled: set<nat>, aborted: set<nat>) {
    forall i :: 0 <= i < |queue| ==> queue[i].id !in settled && !Fired(queue[i].signal, aborted)
  }

  /** The two queues, the flags and the counters agree with the history. */
  ghost predicate Books(l: Ledger<Priority>, resolveQueue: seq<Entry<Priority>>, backgroundQueue: seq<Entry<Priority>>,
                        settled: set<nat>, aborted: set<nat>, active: nat, resolveStarts: nat, backgroundStarts: nat) {
    && Sound(l)
    && Tracks(l, resolveQueue, Resolve)
    && Tracks(l, backgroundQueue, Background)
    && Live(resolveQueue, settled, aborted)
    && Live(backgroundQueue, settled, aborted)
    && (forall id :: id in settled ==> id < |l.subs|)
    && active == |With(l, Running)|
    && resolveStarts == |StartedOf(l, Resolve)|
    && backgroundStarts == |StartedOf(l, Background)|
  }

  ghost predicate BooksOf(s: Scheduler) {
    Books(s.ledger, s.resolveQueue, s.backgroundQueue, s.settled, s.aborted, s.active, s.resolveStarts, s.backgroundStarts)
  }

  predicate Limits(s: Scheduler) {
    && ProfileValid(s.profile)
    && s.active <= s.profile.concurrency
    && |s.resolveQueue| <= s.profile.resolveQueueDepth
    && |s.backgroundQueue| <= s.profile.backgroundQueueDepth
    && (!s.accepting ==> s.resolveQueue == [] && s.backgroundQueue == [] && s.promotion.None?)
  }

  /** What holds even in the middle of a step. */
  ghost predicate Base(s: Scheduler) {
    BooksOf(s) && Limits(s)
  }

  /** Background work that waits has a future drain: an armed timer, a running
      operation or a reservation that will end, or a sampler that will lift the
      lag suppression. */
  predicate WakeUpExists(s: Scheduler) {
    s.accepting && s.backgroundQueue != [] ==>
      s.promotion.Some? || s.active > 0 || s.reservations > 0 || (Suppressed(s) && s.sample.Some?)
  }

  /** No Resolve entry waits while a slot is free. */
  predicate ResolveConserving(s: Scheduler) {
    s.accepting && s.resolveQueue != [] ==> s.active == s.profile.concurrency
  }

  /** A measured lag means that the sampler is running. */
  predicate SamplerAlive(s: Scheduler) {
    s.accepting && s.lag > 0.0 ==> s.sample.Some?
  }

  ghost predicate Inv(s: Scheduler) {
    Base(s) && WakeUpExists(s) && ResolveConserving(s) && SamplerAlive(s) && (!s.accepting ==> s.sample.None?)
  }

  /** Two states that differ in nothing that a drain may not touch. */
  predicate SameGates(s: Scheduler, t: Scheduler) {
    && t.profile == s.profile && t.accepting == s.accepting && t.reservations == s.reservations
    && t.lag == s.lag && t.sample == s.sample && t.promotion == s.promotion
    && t.aborted == s.aborted && t.now == s.now
  }
}
