/** The worker object: its methods update the fields in place and are proved to
    compute the steps of `WorkerModel`. */
module MaintenanceWorkers {
  import opened Wrappers
  import opened WorkerModel

  class IngestionMaintenanceWorker {
    const policy: Policy
    var phase: Phase
    var aborted: bool
    var timer: Option<int>
    var nextRunAt: Option<int>
    var active: bool
    var stopping: bool
    ghost var started: nat
    var cycles: nat
    var degraded: nat
    var failed: nat
    var last: Option<Outcome>
    var lastStartedAt: Option<int>
    var lastCompletedAt: Option<int>

    ghost function State(): Worker
      reads this
    {
      Worker(policy, phase, aborted, timer, nextRunAt, active, stopping, started, cycles, degraded, failed, last,
             lastStartedAt, lastCompletedAt)
    }

    ghost predicate Valid()
      reads this
    {
      Inv(State())
    }

    constructor (policy: Policy)
      requires PolicyValid(policy)
      ensures Valid() && State() == New(policy)
    {
      this.policy := policy;
      phase, aborted, timer, nextRunAt, active, stopping := NotStarted, false, None, None, false, false;
      started, cycles, degraded, failed := 0, 0, 0, 0;
      last, lastStartedAt, lastCompletedAt := None, None, None;
      new;
      NewInv(policy);
    }

    method StartWorker(now: int) returns (thrown: bool)
      requires Valid()
      modifies this
      ensures Valid() && State() == Start(old(State()), now)
      ensures thrown <==> StartThrows(old(State()))
    {
      StepKeeps(State(), now, Starts);
      thrown := false;
      if phase.Scheduled? || phase.Running? {
        return;
      }
      if phase.Stopping? || phase.Stopped? {
        return true;
      }
      ScheduleNext(now, 0);
    }

    method ScheduleNext(now: int, delay: nat)
      modifies this`phase, this`nextRunAt, this`timer
      ensures State() == Schedule(old(State()), now, delay)
    {
      if aborted {
        return;
      }
      phase := Scheduled;
      nextRunAt := Some(now + delay);
      timer := Some(now + delay);
    }

    method OnTimer(now: int)
      requires Valid() && Enabled(State(), now, Fires)
      modifies this
      ensures Valid() && State() == TimerFires(old(State()), now)
    {
      StepKeeps(State(), now, Fires);
      timer := None;
      nextRunAt := None;
      if aborted {
        return;
      }
      phase := Running;
      active := true;
      started := started + 1;
      lastStartedAt := Some(now);
    }

    method OnCycleSettled(now: int, ending: Ending)
      requires Valid() && active
      modifies this
      ensures Valid() && State() == CycleSettles(old(State()), now, ending)
    {
      hide Inv;
      StepKeeps(State(), now, Settles(ending));
      assert Step(State(), now, Settles(ending)) == CycleSettles(State(), now, ending);
      var retry := RecordEnding(ending);
      cycles := cycles + 1;
      lastCompletedAt := Some(now);
      active := false;
      if !aborted {
        ScheduleNext(now, if retry then policy.retryIntervalMs else policy.intervalMs);
      } else if stopping {
        phase := Stopped;
      }
    }

    /** Notes the outcome; `retry` asks for the shorter delay. */
    method RecordEnding(ending: Ending) returns (retry: bool)
      modifies this`last, this`degraded, this`failed
      ensures var outcome := OutcomeOf(old(State()), ending);
              && last == Some(outcome)
              && degraded == (if outcome.Degraded? then old(degraded) + 1 else old(degraded))
              && failed == (if outcome.Failed? then old(failed) + 1 else old(failed))
              && retry == Retries(outcome)
    {
      retry := false;
      match ending {
        case Reported(isDegraded) =>
          if isDegraded {
            last := Some(Degraded);
            degraded := degraded + 1;
            retry := true;
          } else {
            last := Some(Completed);
          }
        case LaneEnded =>
          last := Some(Cancelled);
        case Threw =>
          if aborted {
            last := Some(Cancelled);
          } else {
            failed := failed + 1;
            last := Some(Failed);
            retry := true;
          }
      }
    }

    method Drain()
      requires Valid()
      modifies this
      ensures Valid() && State() == BeginDraining(old(State()))
    {
      StepKeeps(State(), 0, Drains);
      if phase.Stopping? || phase.Stopped? {
        return;
      }
      timer := None;
      nextRunAt := None;
      phase := Stopping;
      aborted := true;
    }

    method RequestStop()
      requires Valid()
      modifies this
      ensures Valid() && State() == Stop(old(State()))
    {
      StopKeeps(State());
      if phase.Stopped? {
        return;
      }
      Drain();
      stopping := true;
      if !active {
        phase := Stopped;
      }
    }
  }
}
