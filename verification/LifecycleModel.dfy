/**
 The daemon's accept/drain/close boundary together with the lanes it stops and the
 maintenance worker it silences, as one state machine.

 A step is one run-to-completion block: a lane event, a worker event, a
 registration, the start of draining or of the shutdown, a poll of the drain wait,
 or the release of one resource.
 */
module LifecycleModel {
  import opened Wrappers
  import opened LaneModel
  import W = WorkerModel

  const DRAIN_POLL_MS := 10

  datatype Phase = Accepting | Draining | Closed

  /** `WorkerHook` is the worker's; the others only report that they were called,
      and one that throws is called all the same. */
  datatype Hook = WorkerHook | OtherHook(id: nat, throws: bool)

  datatype Close = Close(index: nat, failed: bool)

  /** `since` is when the shutdown was requested; `total` counts the resources
      registered when closing began; `idle` and `late` are what was found then. */
  datatype Closing =
    Closing(since: int, total: nat, remaining: seq<nat>, closes: seq<Close>, idle: bool, late: bool)

  datatype Shutdown =
    | NotRequested
    | Waiting(since: int, polls: nat, polledAt: int)
    | Releasing(closing: Closing)
    | Done(closing: Closing)

  datatype Daemon = Daemon(
    phase: Phase,
    lanes: seq<Lane>,
    worker: W.Worker,
    workerLane: nat,
    workerSignal: nat,
    registered: seq<Hook>,
    hooks: seq<Hook>,
    called: seq<Hook>,
    closeables: seq<bool>,       // whether each has been closed, in registration order
    shutdown: Shutdown,
    timeout: nat,
    now: int)

  datatype Event =
    | LaneStep(lane: nat, laneEvent: LaneModel.Event)
    | WorkerStep(workerEvent: W.Event)
    | RegisterHook(hook: Hook)
    | RegisterCloseable
    | BeginDraining
    | RequestShutdown
    | Tick(ms: nat)
    | Poll
    | CloseNext(failed: bool)
    | Finish

  // ----------------------------------------------------------------- the pieces

  ghost predicate LanesSound(lanes: seq<Lane>) {
    forall i :: 0 <= i < |lanes| ==> LaneModel.Inv(lanes[i])
  }

  predicate AllIdle(lanes: seq<Lane>) {
    forall i :: 0 <= i < |lanes| ==> Idle(lanes[i])
  }

  predicate AllStopped(lanes: seq<Lane>) {
    forall i :: 0 <= i < |lanes| ==> !lanes[i].accepting
  }

  ghost function StopAll(lanes: seq<Lane>): (stopped: seq<Lane>)
    ensures |stopped| == |lanes| && forall i :: 0 <= i < |lanes| ==> stopped[i] == Stopped(lanes[i])
  {
    seq(|lanes|, i requires 0 <= i < |lanes| => Stopped(lanes[i]))
  }

  /** The worker's hook drains the worker and fires the signal its lane work waits
      under. */
  ghost function Call(d: Daemon, hook: Hook): Daemon
    requires d.workerLane < |d.lanes|
  {
    var called := d.(called := d.called + [hook]);
    match hook
    case WorkerHook =>
      called.(worker := W.BeginDraining(d.worker),
              lanes := d.lanes[d.workerLane := Aborted(d.lanes[d.workerLane], d.workerSignal)])
    case OtherHook(_, _) => called
  }

  ghost function CallAll(d: Daemon, hooks: seq<Hook>): (r: Daemon)
    requires d.workerLane < |d.lanes|
    ensures |r.lanes| == |d.lanes| && r.workerLane == d.workerLane
    decreases |hooks|
  {
    if hooks == [] then d else CallAll(Call(d, hooks[0]), hooks[1..])
  }

  /** Refuses everywhere at once, hooks first. */
  ghost function Drained(d: Daemon): Daemon
    requires d.workerLane < |d.lanes|
  {
    if !d.phase.Accepting? then d
    else
      var hooked := CallAll(d.(phase := Draining, hooks := []), d.hooks);
      hooked.(lanes := StopAll(hooked.lanes))
  }

  /** The indices below `n`, last first. */
  function Countdown(n: nat): seq<nat> {
    if n == 0 then [] else [n - 1] + Countdown(n - 1)
  }

  /** One look at the lanes: closing begins when all are idle or the time is up. */
  function Look(d: Daemon, since: int, polls: nat): Shutdown {
    var late := d.now >= since + d.timeout;
    if AllIdle(d.lanes) || late then
      Releasing(Closing(since, |d.closeables|, Countdown(|d.closeables|), [], AllIdle(d.lanes), late))
    else Waiting(since, polls, d.now)
  }

  // ------------------------------------------------------------------- the steps

  ghost predicate Enabled(d: Daemon, e: Event) {
    && (e.LaneStep? ==> e.lane < |d.lanes| && LaneModel.Enabled(d.lanes[e.lane], e.laneEvent))
    && (e.WorkerStep? ==> W.Enabled(d.worker, d.now, e.workerEvent))
    && (e.Poll? ==> d.shutdown.Waiting? && d.now >= d.shutdown.polledAt + DRAIN_POLL_MS)
    && (e.CloseNext? ==> d.shutdown.Releasing? && d.shutdown.closing.remaining != [])
    && (e.Finish? ==> d.shutdown.Releasing? && d.shutdown.closing.remaining == [])
  }

  /** A cycle that begins submits its work to the worker's lane. */
  ghost function WorkerStepped(d: Daemon, e: W.Event): Daemon
    requires d.workerLane < |d.lanes|
  {
    var worker := W.Step(d.worker, d.now, e);
    var submits := worker.started > d.worker.started;
    var aborts := worker.aborted && !d.worker.aborted;
    var lane := d.lanes[d.workerLane];
    d.(worker := worker,
       lanes := if submits then d.lanes[d.workerLane := LaneModel.Run(lane, Some(d.workerSignal))]
                else if aborts then d.lanes[d.workerLane := Aborted(lane, d.workerSignal)]
                else d.lanes)
  }

  /** A hook registered late is called at once. */
  ghost function HookRegistered(d: Daemon, hook: Hook): Daemon
    requires d.workerLane < |d.lanes|
  {
    var known := d.(registered := d.registered + [hook]);
    if d.phase.Accepting? then known.(hooks := d.hooks + [hook]) else Call(known, hook)
  }

  /** A second request joins the first. */
  ghost function ShutdownRequested(d: Daemon): Daemon
    requires d.workerLane < |d.lanes|
  {
    if !d.shutdown.NotRequested? then d
    else
      var drained := Drained(d);
      drained.(shutdown := Look(drained, drained.now, 0))
  }

  /** Releases the next resource, unless it has been released; a failure does not
      stop the rest. */
  ghost function Released(d: Daemon, failed: bool): Daemon
    requires d.shutdown.Releasing? && d.shutdown.closing.remaining != []
    requires d.shutdown.closing.remaining[0] < |d.closeables|
  {
    var c := d.shutdown.closing;
    var index := c.remaining[0];
    var rest := c.(remaining := c.remaining[1..]);
    if d.closeables[index] then d.(shutdown := Releasing(rest))
    else
      d.(closeables := d.closeables[index := true],
         shutdown := Releasing(rest.(closes := c.closes + [Close(index, failed)])))
  }

  // --------------------------------------------------------------- the invariant

  ghost predicate ClosingSound(d: Daemon, c: Closing) {
    && (c.idle || c.late)
    && (c.idle ==> AllIdle(d.lanes))
    && (c.late ==> d.now >= c.since + d.timeout)
    && c.total <= |d.closeables|
    && Indices(c.closes) + c.remaining == Countdown(c.total)
    && (forall i :: 0 <= i < |d.closeables| ==> (d.closeables[i] <==> i in Indices(c.closes)))
  }

  function Indices(closes: seq<Close>): (r: seq<nat>)
    ensures |r| == |closes| && forall i :: 0 <= i < |r| ==> r[i] == closes[i].index
  {
    seq(|closes|, i requires 0 <= i < |closes| => closes[i].index)
  }

  ghost predicate ShutdownSound(d: Daemon) {
    match d.shutdown
    case NotRequested => forall i :: 0 <= i < |d.closeables| ==> !d.closeables[i]
    case Waiting(since, polls, polledAt) =>
      && (forall i :: 0 <= i < |d.closeables| ==> !d.closeables[i])
      && since + polls * DRAIN_POLL_MS <= polledAt < since + d.timeout
      && polledAt <= d.now
    case Releasing(c) => ClosingSound(d, c)
    case Done(c) => ClosingSound(d, c) && c.remaining == []
  }

  ghost predicate PhaseSound(d: Daemon) {
    && (d.phase.Accepting? ==> d.hooks == d.registered && d.called == [] && d.shutdown.NotRequested?)
    && (!d.phase.Accepting? ==>
          && d.hooks == [] && d.called == d.registered
          && AllStopped(d.lanes)
          && (WorkerHook in d.registered ==> d.worker.aborted))
    && (d.phase.Closed? <==> d.shutdown.Done?)
  }

  ghost predicate Inv(d: Daemon) {
    && d.workerLane < |d.lanes|
    && LanesSound(d.lanes)
    && W.Inv(d.worker)
    && PhaseSound(d)
    && ShutdownSound(d)
  }

  /** A daemon as it is constructed over its lanes and its worker. */
  ghost predicate Fresh(d: Daemon) {
    && d.workerLane < |d.lanes| && LanesSound(d.lanes) && W.Inv(d.worker)
    && d.phase.Accepting? && d.shutdown.NotRequested?
    && d.registered == [] && d.hooks == [] && d.called == [] && d.closeables == []
  }

  lemma FreshInv(d: Daemon)
    requires Fresh(d)
    ensures Inv(d)
  {
  }

  ghost function Step(d: Daemon, e: Event): Daemon
    requires Inv(d) && Enabled(d, e)
  {
    match e
    case LaneStep(i, event) => d.(lanes := d.lanes[i := LaneModel.Step(d.lanes[i], event)])
    case WorkerStep(event) => WorkerStepped(d, event)
    case RegisterHook(hook) => HookRegistered(d, hook)
    case RegisterCloseable => d.(closeables := d.closeables + [false])
    case BeginDraining => Drained(d)
    case RequestShutdown => ShutdownRequested(d)
    case Tick(ms) => d.(now := d.now + ms)
    case Poll => d.(shutdown := Look(d, d.shutdown.since, d.shutdown.polls + 1))
    case CloseNext(failed) => RemainingRegistered(d); Released(d, failed)
    case Finish => d.(phase := Closed, shutdown := Done(d.shutdown.closing))
  }

  lemma {:induction false} CountdownCovers(n: nat)
    ensures |Countdown(n)| == n
    ensures forall i :: 0 <= i < n ==> Countdown(n)[i] == n - 1 - i
    ensures forall k :: k in Countdown(n) <==> 0 <= k < n
  {
    if n > 0 {
      CountdownCovers(n - 1);
      assert Countdown(n)[1..] == Countdown(n - 1);
    }
  }

  lemma RemainingRegistered(d: Daemon)
    requires Inv(d) && d.shutdown.Releasing? && d.shutdown.closing.remaining != []
    ensures d.shutdown.closing.remaining[0] < |d.closeables|
    ensures d.shutdown.closing.remaining[0] !in Indices(d.shutdown.closing.closes)
  {
    var c := d.shutdown.closing;
    CountdownCovers(c.total);
    var done := Indices(c.closes);
    assert (done + c.remaining)[|done|] == c.remaining[0];
    forall i | 0 <= i < |done| ensures done[i] != c.remaining[0] {
      assert (done + c.remaining)[i] == done[i];
    }
  }

  // ---------------------------------------------------------- every step keeps it

  /** What is kept of lanes once they are stopped: they stay stopped, start nothing,
      and idle ones stay idle. */
  ghost predicate Quiet(before: seq<Lane>, after: seq<Lane>) {
    && |before| == |after|
    && forall i :: 0 <= i < |before| && !before[i].accepting ==>
         && !after[i].accepting
         && after[i].ledger.order == before[i].ledger.order
         && (Idle(before[i]) ==> Idle(after[i]))
  }

  lemma LaneKeeps(s: Lane, e: LaneModel.Event)
    requires LaneModel.Inv(s) && LaneModel.Enabled(s, e)
    ensures var t := LaneModel.Step(s, e);
            && LaneModel.Inv(t)
            && (!s.accepting ==> !t.accepting && t.ledger.order == s.ledger.order && (Idle(s) ==> Idle(t)))
            && (e.Stop? ==> !t.accepting)
  {
    LaneModel.StepKeeps(s, e);
    if !s.accepting {
      var t := LaneModel.Step(s, e);
      assert [e][1..] == [];
      assert LaneModel.Reaches(t, [], t);
      assert LaneModel.Reaches(s, [e], t);
      StoppedForever(s, [e], t);
    }
  }

  lemma LaneUpdated(lanes: seq<Lane>, i: nat, e: LaneModel.Event)
    requires i < |lanes| && LanesSound(lanes) && LaneModel.Enabled(lanes[i], e)
    ensures var after := lanes[i := LaneModel.Step(lanes[i], e)];
            && LanesSound(after)
            && Quiet(lanes, after)
            && (AllStopped(lanes) ==> AllStopped(after) && (AllIdle(lanes) ==> AllIdle(after)))
  {
    hide LaneModel.Inv, LaneModel.Step;
    LaneKeeps(lanes[i], e);
  }

  lemma LanesStopped(lanes: seq<Lane>)
    requires LanesSound(lanes)
    ensures LanesSound(StopAll(lanes)) && AllStopped(StopAll(lanes)) && Quiet(lanes, StopAll(lanes))
  {
    hide LaneModel.Inv, Stopped, Idle;
    forall i | 0 <= i < |lanes|
      ensures LaneModel.Inv(StopAll(lanes)[i]) && !StopAll(lanes)[i].accepting
      ensures !lanes[i].accepting ==>
                StopAll(lanes)[i].ledger.order == lanes[i].ledger.order && (Idle(lanes[i]) ==> Idle(StopAll(lanes)[i]))
    {
      LaneKeeps(lanes[i], LaneModel.Stop);
    }
  }

  lemma QuietTransitive(a: seq<Lane>, b: seq<Lane>, c: seq<Lane>)
    requires Quiet(a, b) && Quiet(b, c)
    ensures Quiet(a, c)
  {
  }

  /** What hooks leave alone, and what they do. */
  ghost predicate Hooked(d: Daemon, hooks: seq<Hook>, r: Daemon) {
    && LanesSound(r.lanes) && W.Inv(r.worker)
    && Quiet(d.lanes, r.lanes)
    && (AllStopped(d.lanes) ==> AllStopped(r.lanes) && (AllIdle(d.lanes) ==> AllIdle(r.lanes)))
    && (d.worker.aborted || WorkerHook in hooks ==> r.worker.aborted)
    && r.worker.started == d.worker.started
    && r == d.(lanes := r.lanes, worker := r.worker, called := d.called + hooks)
  }

  lemma CallKeeps(d: Daemon, hook: Hook)
    requires d.workerLane < |d.lanes| && LanesSound(d.lanes) && W.Inv(d.worker)
    ensures Hooked(d, [hook], Call(d, hook))
  {
    if hook.WorkerHook? {
      LaneUpdated(d.lanes, d.workerLane, Abort(d.workerSignal));
      hide LanesSound, Quiet, AllStopped, AllIdle;
      W.StepKeeps(d.worker, 0, W.Drains);
    }
  }

  lemma {:induction false} CallAllKeeps(d: Daemon, hooks: seq<Hook>)
    requires d.workerLane < |d.lanes| && LanesSound(d.lanes) && W.Inv(d.worker)
    ensures Hooked(d, hooks, CallAll(d, hooks))
    decreases |hooks|
  {
    if hooks == [] {
      assert d.called + hooks == d.called;
    } else {
      var first := Call(d, hooks[0]);
      CallKeeps(d, hooks[0]);
      CallAllKeeps(first, hooks[1..]);
      hide LanesSound, W.Inv, AllStopped, AllIdle, Call;
      QuietTransitive(d.lanes, first.lanes, CallAll(d, hooks).lanes);
      hide Quiet;
      assert hooks == [hooks[0]] + hooks[1..];
      assert first.called + hooks[1..] == d.called + hooks;
    }
  }

  /** Draining stops every lane, calls every registered hook once and in order, and
      so silences the worker. */
  lemma DrainKeeps(d: Daemon)
    requires Inv(d)
    ensures Inv(Drained(d)) && !Drained(d).phase.Accepting?
    ensures Quiet(d.lanes, Drained(d).lanes)
    ensures Drained(d).worker.started == d.worker.started
    ensures Drained(d).shutdown == d.shutdown && Drained(d).now == d.now && Drained(d).timeout == d.timeout
    ensures d.worker.aborted ==> Drained(d).worker.aborted
  {
    if d.phase.Accepting? {
      var open := d.(phase := Draining, hooks := []);
      CallAllKeeps(open, d.hooks);
      var hooked := CallAll(open, d.hooks);
      LanesStopped(hooked.lanes);
      QuietTransitive(d.lanes, hooked.lanes, StopAll(hooked.lanes));
      assert d.called + d.hooks == d.registered;
    } else {
      assert Quiet(d.lanes, d.lanes);
    }
  }

  lemma LookKeeps(d: Daemon, since: int, polls: nat)
    requires forall i :: 0 <= i < |d.closeables| ==> !d.closeables[i]
    requires since + polls * DRAIN_POLL_MS <= d.now
    ensures ShutdownSound(d.(shutdown := Look(d, since, polls)))
    ensures !Look(d, since, polls).NotRequested? && !Look(d, since, polls).Done?
  {
    assert [] + Countdown(|d.closeables|) == Countdown(|d.closeables|);
  }

  lemma RequestKeeps(d: Daemon)
    requires Inv(d)
    ensures Inv(ShutdownRequested(d))
  {
    if d.shutdown.NotRequested? {
      DrainKeeps(d);
      hide LanesSound, AllIdle, AllStopped, Drained, W.Inv, Look;
      LookKeeps(Drained(d), Drained(d).now, 0);
    }
  }

  /** The next resource in the order has not been released yet, so releasing it
      extends the record by exactly it. */
  lemma ReleaseKeeps(d: Daemon, failed: bool)
    requires Inv(d) && d.shutdown.Releasing? && d.shutdown.closing.remaining != []
    requires (RemainingRegistered(d); true)
    ensures (RemainingRegistered(d); Inv(Released(d, failed)))
  {
    hide LanesSound, AllIdle, AllStopped, W.Inv, Countdown;
    RemainingRegistered(d);
    var c := d.shutdown.closing;
    var index := c.remaining[0];
    var t := Released(d, failed);
    var e := t.shutdown.closing;
    assert Indices(e.closes) == Indices(c.closes) + [index];
    assert Indices(e.closes) + e.remaining == Indices(c.closes) + c.remaining;
    forall i | 0 <= i < |t.closeables| ensures t.closeables[i] <==> i in Indices(e.closes) {
      assert i in Indices(e.closes) <==> i in Indices(c.closes) || i == index;
    }
  }

  lemma FinishKeeps(d: Daemon)
    requires Inv(d) && Enabled(d, Finish)
    ensures Inv(Step(d, Finish)) && Step(d, Finish) == d.(phase := Closed, shutdown := Done(d.shutdown.closing))
  {
    hide LanesSound, AllIdle, AllStopped, W.Inv, Countdown;
  }

  lemma RegisterCloseableKeeps(d: Daemon)
    requires Inv(d)
    ensures Inv(d.(closeables := d.closeables + [false]))
  {
    hide LanesSound, AllIdle, AllStopped, W.Inv;
    if d.shutdown.Releasing? || d.shutdown.Done? {
      var c := d.shutdown.closing;
      CountdownCovers(c.total);
      hide Countdown;
      forall k | k in Indices(c.closes) ensures k < c.total {
        assert k in Indices(c.closes) + c.remaining;
      }
    }
  }

  lemma HookQueued(d: Daemon, hook: Hook)
    requires Inv(d) && d.phase.Accepting?
    ensures Inv(d.(registered := d.registered + [hook], hooks := d.hooks + [hook]))
  {
    hide LanesSound, AllIdle, AllStopped, W.Inv, Countdown, Indices;
  }

  lemma HookNoted(d: Daemon, hook: Hook)
    requires Inv(d) && !d.phase.Accepting? && (hook.WorkerHook? ==> d.worker.aborted)
    ensures Inv(d.(registered := d.registered + [hook], called := d.called + [hook]))
  {
    hide LanesSound, AllIdle, AllStopped, W.Inv, Countdown, Indices;
  }

  lemma HookKeeps(d: Daemon, hook: Hook)
    requires Inv(d)
    ensures Inv(HookRegistered(d, hook)) && Quiet(d.lanes, HookRegistered(d, hook).lanes)
    ensures HookRegistered(d, hook).worker.started == d.worker.started
  {
    assert Quiet(d.lanes, d.lanes);
    hide LanesSound, Quiet, AllIdle, AllStopped, W.Inv, ShutdownSound, Call;
    if d.phase.Accepting? {
      HookQueued(d, hook);
    } else {
      CallKeeps(d, hook);
      var changed := d.(lanes := Call(d, hook).lanes, worker := Call(d, hook).worker);
      PartsChange(d, changed);
      HookNoted(changed, hook);
    }
  }

  /** What the worker's steps can do to its lane. */
  lemma WorkerLane(lanes: seq<Lane>, i: nat, signal: nat)
    requires i < |lanes| && LanesSound(lanes)
    ensures var submitted := lanes[i := LaneModel.Run(lanes[i], Some(signal))];
            LanesSound(submitted) && Quiet(lanes, submitted)
            && (AllStopped(lanes) ==> AllStopped(submitted) && (AllIdle(lanes) ==> AllIdle(submitted)))
    ensures var aborted := lanes[i := Aborted(lanes[i], signal)];
            LanesSound(aborted) && Quiet(lanes, aborted)
            && (AllStopped(lanes) ==> AllStopped(aborted) && (AllIdle(lanes) ==> AllIdle(aborted)))
    ensures Quiet(lanes, lanes)
  {
    LaneUpdated(lanes, i, Submit(Some(signal)));
    LaneUpdated(lanes, i, Abort(signal));
  }

  lemma WorkerKeeps(d: Daemon, e: W.Event)
    requires Inv(d) && W.Enabled(d.worker, d.now, e)
    ensures Inv(WorkerStepped(d, e)) && Quiet(d.lanes, WorkerStepped(d, e).lanes)
    ensures d.worker.aborted ==> WorkerStepped(d, e).worker.aborted && WorkerStepped(d, e).worker.started == d.worker.started
  {
    hide LanesSound, Quiet, AllIdle, AllStopped, W.Inv, W.Step, W.Enabled, PhaseSound, ShutdownSound;
    hide LaneModel.Run, Aborted;
    W.StepKeeps(d.worker, d.now, e);
    WorkerLane(d.lanes, d.workerLane, d.workerSignal);
    PartsChange(d, WorkerStepped(d, e));
  }

  /** Lanes and worker may change as long as stopped lanes stay stopped, idle ones
      idle, and a silenced worker silent. */
  lemma PartsChange(d: Daemon, t: Daemon)
    requires Inv(d) && t == d.(lanes := t.lanes, worker := t.worker)
    requires |t.lanes| == |d.lanes| && LanesSound(t.lanes) && W.Inv(t.worker)
    requires AllStopped(d.lanes) ==> AllStopped(t.lanes) && (AllIdle(d.lanes) ==> AllIdle(t.lanes))
    requires d.worker.aborted ==> t.worker.aborted
    ensures Inv(t)
  {
    hide LanesSound, AllIdle, AllStopped, W.Inv, Countdown, Indices;
  }

  lemma LaneStepKeeps(d: Daemon, i: nat, e: LaneModel.Event)
    requires Inv(d) && i < |d.lanes| && LaneModel.Enabled(d.lanes[i], e)
    ensures var t := d.(lanes := d.lanes[i := LaneModel.Step(d.lanes[i], e)]);
            Inv(t) && Quiet(d.lanes, t.lanes)
  {
    hide Quiet, AllIdle, AllStopped, W.Inv, PhaseSound, ShutdownSound;
    hide LaneModel.Step, LaneModel.Enabled, LaneModel.Inv;
    LaneUpdated(d.lanes, i, e);
    PartsChange(d, d.(lanes := d.lanes[i := LaneModel.Step(d.lanes[i], e)]));
  }

  lemma PollKeeps(d: Daemon)
    requires Inv(d) && Enabled(d, Poll)
    ensures Inv(d.(shutdown := Look(d, d.shutdown.since, d.shutdown.polls + 1)))
  {
    hide LanesSound, AllIdle, AllStopped, W.Inv, Countdown, Look;
    LookKeeps(d, d.shutdown.since, d.shutdown.polls + 1);
  }

  /** Every step keeps the invariant; once draining has begun, no step starts
      anything on a stopped lane or begins a cycle of a silenced worker. */
  lemma StepKeeps(d: Daemon, e: Event)
    requires Inv(d) && Enabled(d, e)
    ensures Inv(Step(d, e))
    ensures Quiet(d.lanes, Step(d, e).lanes)
    ensures !d.phase.Accepting? ==> !Step(d, e).phase.Accepting?
    ensures d.worker.aborted ==> Step(d, e).worker.aborted && Step(d, e).worker.started == d.worker.started
  {
    hide LanesSound, AllIdle, AllStopped, W.Inv, Countdown, Look, Drained, Released, HookRegistered, WorkerStepped;
    hide LaneModel.Step, LaneModel.Enabled, W.Enabled;
    assert Quiet(d.lanes, d.lanes);
    hide Quiet;
    match e
    case LaneStep(i, event) => LaneStepKeeps(d, i, event);
    case WorkerStep(event) => WorkerKeeps(d, event); WorkerPhase(d, event);
    case RegisterHook(hook) => HookKeeps(d, hook); HookPhase(d, hook);
    case RegisterCloseable => RegisterCloseableKeeps(d);
    case BeginDraining => DrainKeeps(d);
    case RequestShutdown => RequestKeeps(d); DrainKeeps(d);
    case Tick(ms) =>
    case Poll => PollKeeps(d);
    case CloseNext(failed) => ReleaseKeeps(d, failed); ReleasePhase(d, failed);
    case Finish =>
  }

  lemma WorkerPhase(d: Daemon, e: W.Event)
    requires d.workerLane < |d.lanes|
    ensures WorkerStepped(d, e).phase == d.phase
  {
  }

  lemma HookPhase(d: Daemon, hook: Hook)
    requires Inv(d)
    ensures HookRegistered(d, hook).phase == d.phase
    ensures d.worker.aborted ==> HookRegistered(d, hook).worker.aborted
  {
    if !d.phase.Accepting? {
      CallKeeps(d, hook);
    }
  }

  lemma ReleasePhase(d: Daemon, failed: bool)
    requires Inv(d) && d.shutdown.Releasing? && d.shutdown.closing.remaining != []
    ensures (RemainingRegistered(d); Released(d, failed).phase == d.phase)
    ensures (RemainingRegistered(d); Released(d, failed).lanes == d.lanes && Released(d, failed).worker == d.worker)
  {
    RemainingRegistered(d);
  }
}
