/**
 The worker that runs ingestion maintenance: one cycle at a time, the next one
 scheduled only when the last has settled, and none at all once draining begins.
 */
module WorkerModel {
  import opened Wrappers

  datatype Policy = Policy(intervalMs: nat, retryIntervalMs: nat)

  predicate PolicyValid(p: Policy) {
    0 < p.retryIntervalMs <= p.intervalMs
  }

  datatype Phase = NotStarted | Scheduled | Running | Stopping | Stopped

  datatype Outcome = Completed | Degraded | Failed | Cancelled

  /** How a cycle ends: with a report, refused or cancelled by the lane, or with
      another error. */
  datatype Ending = Reported(degraded: bool) | LaneEnded | Threw

  /**
   `timer` is when the armed timer is due; `active` whether a cycle is under way;
   `stopping` whether someone waits for the worker to have stopped; `started` counts
   the cycles that began.
   */
  datatype Worker = Worker(
    policy: Policy,
    phase: Phase,
    aborted: bool,
    timer: Option<int>,
    nextRunAt: Option<int>,
    active: bool,
    stopping: bool,
    started: nat,
    cycles: nat,
    degraded: nat,
    failed: nat,
    last: Option<Outcome>,
    lastStartedAt: Option<int>,
    lastCompletedAt: Option<int>)

  // -------------------------------------------------------------------- the steps

  function New(policy: Policy): Worker {
    Worker(policy, NotStarted, false, None, None, false, false, 0, 0, 0, 0, None, None, None)
  }

  function Schedule(w: Worker, now: int, delay: nat): Worker {
    if w.aborted then w
    else w.(phase := Scheduled, timer := Some(now + delay), nextRunAt := Some(now + delay))
  }

  predicate StartThrows(w: Worker) {
    w.phase.Stopping? || w.phase.Stopped?
  }

  function Start(w: Worker, now: int): Worker {
    if w.phase.Scheduled? || w.phase.Running? || StartThrows(w) then w else Schedule(w, now, 0)
  }

  /** The armed timer fires: a cycle begins, unless the worker has been told to stop. */
  function TimerFires(w: Worker, now: int): Worker {
    var disarmed := w.(timer := None, nextRunAt := None);
    if w.aborted then disarmed
    else disarmed.(phase := Running, active := true, started := w.started + 1, lastStartedAt := Some(now))
  }

  function OutcomeOf(w: Worker, ending: Ending): Outcome {
    match ending
    case Reported(degraded) => if degraded then Degraded else Completed
    case LaneEnded => Cancelled
    case Threw => if w.aborted then Cancelled else Failed
  }

  predicate Retries(outcome: Outcome) {
    outcome.Degraded? || outcome.Failed?
  }

  /** The cycle settles and, unless the worker is to stop, the next one is scheduled. */
  function CycleSettles(w: Worker, now: int, ending: Ending): Worker {
    var outcome := OutcomeOf(w, ending);
    var done := w.(
      active := false,
      cycles := w.cycles + 1,
      degraded := if outcome.Degraded? then w.degraded + 1 else w.degraded,
      failed := if outcome.Failed? then w.failed + 1 else w.failed,
      last := Some(outcome),
      lastCompletedAt := Some(now));
    if done.aborted then (if done.stopping then done.(phase := Stopped) else done)
    else Schedule(done, now, if Retries(outcome) then w.policy.retryIntervalMs else w.policy.intervalMs)
  }

  function BeginDraining(w: Worker): Worker {
    if w.phase.Stopping? || w.phase.Stopped? then w
    else w.(timer := None, nextRunAt := None, phase := Stopping, aborted := true)
  }

  /** Stopping waits for a cycle that is under way. */
  function Stop(w: Worker): Worker {
    if w.phase.Stopped? then w
    else
      var drained := BeginDraining(w).(stopping := true);
      if drained.active then drained else drained.(phase := Stopped)
  }

  // ---------------------------------------------------------------- the invariant

  ghost predicate Inv(w: Worker) {
    && (w.timer.Some? <==> w.phase.Scheduled?)
    && w.nextRunAt == w.timer
    && (w.phase.Running? ==> w.active)
    && (w.active ==> w.phase.Running? || w.phase.Stopping?)
    && (w.aborted <==> w.phase.Stopping? || w.phase.Stopped?)
    && (w.stopping ==> w.aborted)
    && (w.stopping && !w.active ==> w.phase.Stopped?)
    && w.started == w.cycles + (if w.active then 1 else 0)
    && (w.phase.NotStarted? ==> w.started == 0)
    && w.degraded + w.failed <= w.cycles
    && (w.cycles > 0 <==> w.last.Some?) && (w.cycles > 0 <==> w.lastCompletedAt.Some?)
    && (w.phase.Scheduled? && w.cycles > 0 ==>
          w.timer == Some(w.lastCompletedAt.value
                          + if Retries(w.last.value) then w.policy.retryIntervalMs else w.policy.intervalMs))
  }

  datatype Event =
    | Starts
    | Fires
    | Settles(ending: Ending)
    | Drains
    | Stops

  /** The timer fires once it is armed and due; a cycle settles while it is active. */
  predicate Enabled(w: Worker, now: int, e: Event) {
    && (e.Fires? ==> w.timer.Some? && w.timer.value <= now)
    && (e.Settles? ==> w.active)
  }

  function Step(w: Worker, now: int, e: Event): Worker {
    match e
    case Starts => Start(w, now)
    case Fires => TimerFires(w, now)
    case Settles(ending) => CycleSettles(w, now, ending)
    case Drains => BeginDraining(w)
    case Stops => Stop(w)
  }

  lemma NewInv(policy: Policy)
    ensures Inv(New(policy))
  {
  }

  /** Never two cycles at once, and never a cycle together with an armed timer; every
      start is a finished cycle or the one under way. */
  lemma StepKeeps(w: Worker, now: int, e: Event)
    requires Inv(w) && Enabled(w, now, e)
    ensures Inv(Step(w, now, e))
    ensures Step(w, now, e).policy == w.policy
    ensures w.aborted ==> Step(w, now, e).aborted && Step(w, now, e).started == w.started
    ensures Step(w, now, e).started > w.started ==> !w.active && !w.aborted && e.Fires?
  {
  }

  datatype Timed = Timed(now: int, event: Event)

  /** A run: events in the order of their times. */
  ghost predicate Reaches(w: Worker, from: int, es: seq<Timed>, t: Worker)
    decreases |es|
  {
    if es == [] then w == t
    else
      && from <= es[0].now
      && Enabled(w, es[0].now, es[0].event)
      && Reaches(Step(w, es[0].now, es[0].event), es[0].now, es[1..], t)
  }

  lemma {:induction false} RunsKeep(w: Worker, from: int, es: seq<Timed>, t: Worker)
    requires Inv(w) && Reaches(w, from, es, t)
    ensures Inv(t) && t.policy == w.policy
    decreases |es|
  {
    if es != [] {
      StepKeeps(w, es[0].now, es[0].event);
      RunsKeep(Step(w, es[0].now, es[0].event), es[0].now, es[1..], t);
    }
  }

  /** Once told to drain, the worker never begins a cycle again, has no timer armed,
      and stays told. */
  lemma {:induction false} DrainedForever(w: Worker, from: int, es: seq<Timed>, t: Worker)
    requires Inv(w) && w.aborted && Reaches(w, from, es, t)
    ensures t.aborted && t.started == w.started && t.timer.None? && t.cycles <= w.started
    decreases |es|
  {
    if es != [] {
      StepKeeps(w, es[0].now, es[0].event);
      DrainedForever(Step(w, es[0].now, es[0].event), es[0].now, es[1..], t);
    }
  }

  /** From a stop onwards the worker is stopped as soon as no cycle is under way. */
  lemma StopCompletes(w: Worker, from: int, es: seq<Timed>, t: Worker)
    requires Inv(w) && Reaches(Stop(w), from, es, t)
    ensures t.started == w.started
    ensures t.phase.Stopped? <==> !t.active
  {
    StopKeeps(w);
    StoppingStays(Stop(w), from, es, t);
    DrainedForever(Stop(w), from, es, t);
  }

  lemma StopKeeps(w: Worker)
    requires Inv(w)
    ensures Inv(Stop(w)) && Stop(w).aborted && (Stop(w).stopping || Stop(w).phase.Stopped?)
    ensures Stop(w).started == w.started
  {
  }

  lemma {:induction false} StoppingStays(w: Worker, from: int, es: seq<Timed>, t: Worker)
    requires Inv(w) && w.aborted && (w.stopping || w.phase.Stopped?) && Reaches(w, from, es, t)
    ensures Inv(t) && (t.stopping || t.phase.Stopped?)
    decreases |es|
  {
    if es != [] {
      StepKeeps(w, es[0].now, es[0].event);
      StoppingStays(Step(w, es[0].now, es[0].event), es[0].now, es[1..], t);
    }
  }

  /** A worker that has not been told to stop and waits for nothing has a cycle due the
      moment it is started, and the timer begins it. */
  lemma StartIsDue(w: Worker, now: int, at: int)
    requires Inv(w) && w.phase.NotStarted?
    ensures Enabled(Step(w, now, Starts), at, Fires) <==> at >= now
    ensures var u := Step(Step(w, now, Starts), at, Fires);
            u.active && u.phase.Running? && u.started == 1 && u.lastStartedAt == Some(at) && u.timer.None?
  {
  }

  /** After a cycle the next one is due a whole interval on, the shorter one if the
      cycle is to be retried, and no later; a worker told to stop has none due.  What
      ended degraded and what failed is counted apart. */
  lemma NextIsDue(w: Worker, now: int, ending: Ending, at: int)
    requires Inv(w) && Enabled(w, now, Settles(ending))
    ensures var u := Step(w, now, Settles(ending));
            && u.cycles == w.cycles + 1 && !u.active
            && u.degraded == w.degraded + (if ending == Reported(true) then 1 else 0)
            && u.failed == w.failed + (if ending.Threw? && !w.aborted then 1 else 0)
            && (w.aborted ==> u.timer.None? && (u.phase.Stopped? <==> w.stopping || w.phase.Stopped?))
            && (!w.aborted ==>
                  (Enabled(u, at, Fires) <==>
                     at >= now + match ending
                                 case Reported(degraded) => if degraded then w.policy.retryIntervalMs else w.policy.intervalMs
                                 case LaneEnded => w.policy.intervalMs
                                 case Threw => w.policy.retryIntervalMs))
  {
  }

  /** Between two cycles lies a whole interval: in every run of a new worker a cycle
      begins no sooner after the last one ended than its outcome asks for. */
  lemma CyclesSpaced(policy: Policy, from: int, es: seq<Timed>, w: Worker, now: int)
    requires Reaches(New(policy), from, es, w) && Enabled(w, now, Fires)
    ensures w.cycles > 0 ==>
              && w.last.Some? && w.lastCompletedAt.Some?
              && now >= w.lastCompletedAt.value
                        + if Retries(w.last.value) then policy.retryIntervalMs else policy.intervalMs
    ensures TimerFires(w, now).active && TimerFires(w, now).lastStartedAt == Some(now)
  {
    NewInv(policy);
    RunsKeep(New(policy), from, es, w);
  }
}
