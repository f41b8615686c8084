/** The lifecycle object over real lanes and a real worker: its methods are proved to
    compute the steps of `LifecycleModel`. */
module DaemonLifecycles {
  import opened Wrappers
  import opened LaneModel
  import opened AdmissionLanes
  import opened MaintenanceWorkers
  import W = WorkerModel
  import opened LifecycleModel

  ghost function StatesOf(lanes: seq<AdmissionLane>): (states: seq<Lane>)
    reads lanes
    ensures |states| == |lanes| && forall i :: 0 <= i < |lanes| ==> states[i] == lanes[i].State()
  {
    seq(|lanes|, i requires 0 <= i < |lanes| reads lanes => lanes[i].State())
  }

  class DaemonLifecycle {
    const lanes: seq<AdmissionLane>
    const worker: IngestionMaintenanceWorker
    const workerLane: nat
    const workerSignal: nat
    const timeout: nat
    var phase: LifecycleModel.Phase
    ghost var registered: seq<Hook>
    ghost var called: seq<Hook>
    var hooks: seq<Hook>
    var closeables: seq<bool>
    var shutdown: Shutdown
    var now: int

    ghost function State(): Daemon
      reads this, lanes, worker
    {
      Daemon(phase, StatesOf(lanes), worker.State(), workerLane, workerSignal, registered, hooks, called, closeables,
             shutdown, timeout, now)
    }

    /** The parts are whole and apart. */
    ghost predicate Parts()
      reads this, lanes, worker
    {
      && workerLane < |lanes|
      && (forall i, j :: 0 <= i < j < |lanes| ==> lanes[i] != lanes[j])
      && (forall i :: 0 <= i < |lanes| ==> lanes[i].Valid())
      && worker.Valid()
    }

    ghost predicate Valid()
      reads this, lanes, worker
    {
      Parts() && LifecycleModel.Inv(State())
    }

    constructor (lanes: seq<AdmissionLane>, worker: IngestionMaintenanceWorker, workerLane: nat, workerSignal: nat,
                 timeout: nat, now: int)
      requires workerLane < |lanes| && worker.Valid()
      requires forall i, j :: 0 <= i < j < |lanes| ==> lanes[i] != lanes[j]
      requires forall i :: 0 <= i < |lanes| ==> lanes[i].Valid()
      ensures Valid() && this.lanes == lanes && this.worker == worker
      ensures State() == Daemon(LifecycleModel.Accepting, StatesOf(lanes), worker.State(), workerLane, workerSignal,
                                [], [], [], [], NotRequested, timeout, now)
    {
      this.lanes, this.worker, this.workerLane, this.workerSignal := lanes, worker, workerLane, workerSignal;
      this.timeout, this.now := timeout, now;
      phase, registered, called, hooks, closeables := LifecycleModel.Accepting, [], [], [], [];
      shutdown := NotRequested;
    }

    /** Calls one hook. */
    method CallHook(hook: Hook)
      requires Parts()
      modifies this`called, lanes, worker
      ensures Parts() && State() == Call(old(State()), hook)
    {
      hide W.Inv, LaneModel.Inv, Aborted, W.BeginDraining;
      called := called + [hook];
      if hook.WorkerHook? {
        worker.Drain();
        lanes[workerLane].AbortSignal(workerSignal);
        assert StatesOf(lanes) == old(StatesOf(lanes))[workerLane := Aborted(old(lanes[workerLane].State()), workerSignal)];
      } else {
        assert StatesOf(lanes) == old(StatesOf(lanes));
      }
    }

    /** Calls the hooks in order; one that throws does not keep the rest from being
        called. */
    method CallHooks(taken: seq<Hook>)
      requires Parts()
      modifies this`called, lanes, worker
      ensures Parts() && State() == CallAll(old(State()), taken)
    {
      hide W.Inv, LaneModel.Inv, Call;
      var i := 0;
      while i < |taken|
        invariant 0 <= i <= |taken|
        invariant Parts()
        invariant CallAll(State(), taken[i..]) == CallAll(old(State()), taken)
      {
        assert taken[i..][0] == taken[i] && taken[i..][1..] == taken[i + 1..];
        CallHook(taken[i]);
        i := i + 1;
      }
    }

    method StopLanes()
      requires Parts()
      modifies lanes
      ensures Parts() && StatesOf(lanes) == StopAll(old(StatesOf(lanes)))
      ensures unchanged(worker)
    {
      hide W.Inv, LaneModel.Inv, Stopped;
      var i := 0;
      while i < |lanes|
        invariant 0 <= i <= |lanes|
        invariant forall k :: 0 <= k < |lanes| ==> lanes[k].Valid()
        invariant forall k :: 0 <= k < i ==> lanes[k].State() == Stopped(old(lanes[k].State()))
        invariant forall k :: i <= k < |lanes| ==> unchanged(lanes[k])
        invariant unchanged(worker)
      {
        lanes[i].StopAccepting();
        i := i + 1;
      }
      assert StatesOf(lanes) == StopAll(old(StatesOf(lanes)));
    }

    /** Refuses everywhere, once. */
    method BeginDrain()
      requires Valid()
      modifies this`phase, this`hooks, this`called, lanes, worker
      ensures Valid() && State() == Drained(old(State()))
    {
      hide LifecycleModel.Inv, CallAll, StopAll, W.Inv, LaneModel.Inv, Quiet;
      DrainKeeps(State());
      if phase != LifecycleModel.Accepting {
        return;
      }
      phase := LifecycleModel.Draining;
      var taken := hooks;
      hooks := [];
      CallHooks(taken);
      StopLanes();
    }

    method RegisterDrainHook(hook: Hook)
      requires Valid()
      modifies this`registered, this`hooks, this`called, lanes, worker
      ensures Valid() && State() == HookRegistered(old(State()), hook)
    {
      hide LifecycleModel.Inv, Call, W.Inv, LaneModel.Inv, Quiet;
      HookKeeps(State(), hook);
      registered := registered + [hook];
      if phase != LifecycleModel.Accepting {
        CallHook(hook);
        return;
      }
      hooks := hooks + [hook];
    }

    method RegisterResource()
      requires Valid()
      modifies this`closeables
      ensures Valid() && State() == LifecycleModel.Step(old(State()), RegisterCloseable)
    {
      RegisterCloseableKeeps(State());
      hide LifecycleModel.Inv, W.Inv, LaneModel.Inv;
      closeables := closeables + [false];
    }

    method LanesIdle() returns (idle: bool)
      ensures idle <==> AllIdle(StatesOf(lanes))
    {
      idle := true;
      for i := 0 to |lanes|
        invariant idle <==> forall k :: 0 <= k < i ==> Idle(lanes[k].State())
      {
        var one := lanes[i].IsIdle();
        idle := idle && one;
      }
    }

    /** Looks once; what to release is fixed the moment the wait is over. */
    method LookOnce(since: int, polls: nat)
      requires Parts()
      modifies this`shutdown
      ensures Parts() && State() == old(State()).(shutdown := Look(old(State()), since, polls))
    {
      hide AllIdle, W.Inv, LaneModel.Inv;
      var idle := LanesIdle();
      var late := now >= since + timeout;
      if idle || late {
        var order := ReverseOrder(|closeables|);
        shutdown := Releasing(Closing(since, |closeables|, order, [], idle, late));
      } else {
        shutdown := Waiting(since, polls, now);
      }
    }

    method ReverseOrder(n: nat) returns (order: seq<nat>)
      ensures order == Countdown(n)
    {
      order := [];
      var i := 0;
      while i < n
        invariant 0 <= i <= n
        invariant order == Countdown(i)
      {
        order := [i] + order;
        i := i + 1;
      }
    }

    method Shutdown()
      requires Valid()
      modifies this`phase, this`hooks, this`called, this`shutdown, lanes, worker
      ensures Valid() && State() == ShutdownRequested(old(State()))
    {
      RequestKeeps(State());
      DrainKeeps(State());
      hide LifecycleModel.Inv, W.Inv, LaneModel.Inv, Drained, Look;
      if !shutdown.NotRequested? {
        return;
      }
      BeginDrain();
      LookOnce(now, 0);
    }

    method OnPoll()
      requires Valid() && LifecycleModel.Enabled(State(), Poll)
      modifies this`shutdown
      ensures Valid() && State() == old(State()).(shutdown := Look(old(State()), old(shutdown).since, old(shutdown).polls + 1))
    {
      PollKeeps(State());
      hide LifecycleModel.Inv, W.Inv, LaneModel.Inv, Look;
      LookOnce(shutdown.since, shutdown.polls + 1);
    }

    /** Releases the next resource; `failed` is how that ended. */
    method ReleaseNext(failed: bool)
      requires Valid() && shutdown.Releasing? && shutdown.closing.remaining != []
      modifies this`closeables, this`shutdown
      ensures Valid() && old(shutdown.closing.remaining[0] < |closeables|) && State() == Released(old(State()), failed)
    {
      RemainingRegistered(State());
      ReleaseKeeps(State(), failed);
      hide LifecycleModel.Inv, W.Inv, LaneModel.Inv;
      var closing := shutdown.closing;
      var index := closing.remaining[0];
      var rest := closing.(remaining := closing.remaining[1..]);
      if !closeables[index] {
        closeables := closeables[index := true];
        rest := rest.(closes := closing.closes + [Close(index, failed)]);
      }
      shutdown := Releasing(rest);
    }

    /** Every resource has been released: the daemon is closed. */
    method Finish()
      requires Valid() && shutdown.Releasing? && shutdown.closing.remaining == []
      modifies this`phase, this`shutdown
      ensures Valid() && State() == LifecycleModel.Step(old(State()), LifecycleModel.Finish)
      ensures phase == LifecycleModel.Closed
    {
      hide LifecycleModel.Inv, W.Inv, LaneModel.Inv, Quiet, LifecycleModel.Step;
      FinishKeeps(State());
      phase := LifecycleModel.Closed;
      shutdown := Done(shutdown.closing);
    }
  }
}
