/** What the shutdown promises over whole runs. */
module LifecycleSafety {
  import opened Wrappers
  import opened LaneModel
  import W = WorkerModel
  import opened LifecycleModel

  ghost predicate Reaches(d: Daemon, es: seq<LifecycleModel.Event>, t: Daemon)
    requires LifecycleModel.Inv(d)
    decreases |es|
  {
    if es == [] then d == t
    else
      && LifecycleModel.Enabled(d, es[0])
      && (LifecycleModel.StepKeeps(d, es[0]); Reaches(LifecycleModel.Step(d, es[0]), es[1..], t))
  }

  lemma {:induction false} RunsKeep(d: Daemon, es: seq<LifecycleModel.Event>, t: Daemon)
    requires LifecycleModel.Inv(d) && Reaches(d, es, t)
    ensures LifecycleModel.Inv(t)
    decreases |es|
  {
    hide LifecycleModel.Inv, LifecycleModel.Step, LifecycleModel.Enabled;
    if es != [] {
      LifecycleModel.StepKeeps(d, es[0]);
      RunsKeep(LifecycleModel.Step(d, es[0]), es[1..], t);
    }
  }

  lemma {:induction false} QuietOverRuns(d: Daemon, es: seq<LifecycleModel.Event>, t: Daemon)
    requires LifecycleModel.Inv(d) && Reaches(d, es, t)
    ensures Quiet(d.lanes, t.lanes)
    ensures !d.phase.Accepting? ==> !t.phase.Accepting?
    ensures d.worker.aborted ==> t.worker.aborted && t.worker.started == d.worker.started
    decreases |es|
  {
    if es == [] {
      assert Quiet(d.lanes, d.lanes);
    } else {
      hide LifecycleModel.Inv, LifecycleModel.Step, LifecycleModel.Enabled;
      LifecycleModel.StepKeeps(d, es[0]);
      var next := LifecycleModel.Step(d, es[0]);
      QuietOverRuns(next, es[1..], t);
      QuietTransitive(d.lanes, next.lanes, t.lanes);
    }
  }

  /** Once draining has begun, over every further run: no lane starts a task, lanes
      that are idle stay idle, and a worker whose hook was registered begins no
      cycle and has no timer armed. */
  lemma NothingStartsOnceDraining(d: Daemon, es: seq<LifecycleModel.Event>, t: Daemon)
    requires LifecycleModel.Inv(d) && !d.phase.Accepting? && Reaches(d, es, t)
    ensures |t.lanes| == |d.lanes|
    ensures forall i :: 0 <= i < |d.lanes| ==>
              && !t.lanes[i].accepting
              && t.lanes[i].ledger.order == d.lanes[i].ledger.order
              && (Idle(d.lanes[i]) ==> Idle(t.lanes[i]))
    ensures WorkerHook in d.registered ==> t.worker.started == d.worker.started && t.worker.timer.None?
  {
    QuietOverRuns(d, es, t);
    RunsKeep(d, es, t);
  }

  /** `es` is a run of a newly constructed daemon, from `d` to `t`. */
  ghost predicate RunFromFresh(d: Daemon, es: seq<LifecycleModel.Event>, t: Daemon) {
    Fresh(d) && (FreshInv(d); Reaches(d, es, t))
  }

  /** In every run resources are released only once every lane is idle, and every
      lane is idle from then on, unless the drain timeout has passed since the
      shutdown was requested. */
  lemma ReleasedWhenIdle(d: Daemon, es: seq<LifecycleModel.Event>, t: Daemon)
    requires RunFromFresh(d, es, t) && Begun(t)
    ensures AllIdle(t.lanes) || t.now >= t.shutdown.closing.since + t.timeout
  {
    FreshInv(d);
    RunsKeep(d, es, t);
  }

  /** The hooks registered during a run, in order. */
  function HooksIn(es: seq<LifecycleModel.Event>): seq<Hook> {
    if es == [] then []
    else (if es[0].RegisterHook? then [es[0].hook] else []) + HooksIn(es[1..])
  }

  function ResourcesIn(es: seq<LifecycleModel.Event>): nat {
    if es == [] then 0 else (if es[0].RegisterCloseable? then 1 else 0) + ResourcesIn(es[1..])
  }

  function PollsIn(es: seq<LifecycleModel.Event>): nat {
    if es == [] then 0 else (if es[0].Poll? then 1 else 0) + PollsIn(es[1..])
  }

  lemma {:induction false} CallAllRegisters(d: Daemon, hooks: seq<Hook>)
    requires d.workerLane < |d.lanes|
    ensures CallAll(d, hooks).registered == d.registered && CallAll(d, hooks).closeables == d.closeables
    decreases |hooks|
  {
    if hooks != [] {
      CallAllRegisters(Call(d, hooks[0]), hooks[1..]);
    }
  }

  lemma StepRegisters(d: Daemon, e: LifecycleModel.Event)
    requires LifecycleModel.Inv(d) && LifecycleModel.Enabled(d, e)
    ensures LifecycleModel.Step(d, e).registered == d.registered + HooksIn([e])
    ensures |LifecycleModel.Step(d, e).closeables| == |d.closeables| + ResourcesIn([e])
  {
    CallAllRegisters(d.(phase := Draining, hooks := []), d.hooks);
    hide LifecycleModel.Inv, CallAll, Look, LaneModel.Step, LaneModel.Enabled, W.Step, StopAll;
    assert [e][1..] == [];
    if e.CloseNext? {
      RemainingRegistered(d);
    }
  }

  /** A run keeps every registration, in order. */
  lemma {:induction false} RunRegisters(d: Daemon, es: seq<LifecycleModel.Event>, t: Daemon)
    requires LifecycleModel.Inv(d) && Reaches(d, es, t)
    ensures t.registered == d.registered + HooksIn(es)
    ensures |t.closeables| == |d.closeables| + ResourcesIn(es)
    decreases |es|
  {
    hide LifecycleModel.Inv, LifecycleModel.Step, LifecycleModel.Enabled;
    if es != [] {
      LifecycleModel.StepKeeps(d, es[0]);
      StepRegisters(d, es[0]);
      RunRegisters(LifecycleModel.Step(d, es[0]), es[1..], t);
      assert [es[0]][1..] == [];
    }
  }

  // ------------------------------------------------------ what the shutdown releases

  predicate Begun(d: Daemon) {
    d.shutdown.Releasing? || d.shutdown.Done?
  }

  lemma {:induction false} ClosingTotalKept(d: Daemon, es: seq<LifecycleModel.Event>, t: Daemon)
    requires LifecycleModel.Inv(d) && Begun(d) && Reaches(d, es, t)
    ensures Begun(t) && t.shutdown.closing.total == d.shutdown.closing.total
    decreases |es|
  {
    if es != [] {
      LifecycleModel.StepKeeps(d, es[0]);
      TotalKept(d, es[0]);
      hide LifecycleModel.Inv, LifecycleModel.Step, LifecycleModel.Enabled;
      ClosingTotalKept(LifecycleModel.Step(d, es[0]), es[1..], t);
    }
  }

  lemma TotalKept(d: Daemon, e: LifecycleModel.Event)
    requires LifecycleModel.Inv(d) && Begun(d) && LifecycleModel.Enabled(d, e)
    ensures var t := LifecycleModel.Step(d, e);
            Begun(t) && t.shutdown.closing.total == d.shutdown.closing.total
  {
    hide LanesSound, AllIdle, AllStopped, W.Inv, Countdown, LaneModel.Step, LaneModel.Enabled, W.Step;
    if e.CloseNext? {
      RemainingRegistered(d);
    }
  }

  /** The event at `k` begins to release: just before it no release had begun, and
      just after it one has. */
  ghost predicate BeginsAt(d: Daemon, es: seq<LifecycleModel.Event>, k: nat)
    requires LifecycleModel.Inv(d) && k < |es|
    decreases k
  {
    && LifecycleModel.Enabled(d, es[0])
    && (LifecycleModel.StepKeeps(d, es[0]);
        var next := LifecycleModel.Step(d, es[0]);
        if k == 0 then !Begun(d) && Begun(next) else BeginsAt(next, es[1..], k - 1))
  }

  /** Only the request for shutdown and a poll begin to release, and what they
      write down is the number of resources registered by then. */
  lemma BeginningRecords(d: Daemon, e: LifecycleModel.Event)
    requires LifecycleModel.Inv(d) && LifecycleModel.Enabled(d, e) && !Begun(d)
    requires Begun(LifecycleModel.Step(d, e))
    ensures e.RequestShutdown? || e.Poll?
    ensures LifecycleModel.Step(d, e).shutdown.closing.total == |d.closeables|
  {
    DrainKeeps(d);
    CallAllRegisters(d.(phase := Draining, hooks := []), d.hooks);
    hide LifecycleModel.Inv, CallAll, LaneModel.Step, LaneModel.Enabled, W.Step, StopAll, Countdown;
  }

  /** A look at the lanes begins the release if and only if every lane is idle or the
      time is up; otherwise the next look comes after one more period. */
  lemma LookReleasesIff(d: Daemon, e: LifecycleModel.Event, at: int)
    requires LifecycleModel.Inv(d) && LifecycleModel.Enabled(d, e) && !Begun(d)
    requires e.Poll? || (e.RequestShutdown? && d.shutdown.NotRequested?)
    ensures var t := LifecycleModel.Step(d, e);
            var since := if e.Poll? then d.shutdown.since else d.now;
            && (Begun(t) <==> AllIdle(t.lanes) || d.now >= since + d.timeout)
            && (!Begun(t) ==>
                  t.shutdown.Waiting? && t.shutdown.since == since
                  && (LifecycleModel.Enabled(t.(now := at), Poll) <==> at >= d.now + DRAIN_POLL_MS))
  {
    DrainKeeps(d);
    hide LifecycleModel.Inv, Drained, AllIdle, LaneModel.Step, LaneModel.Enabled, W.Step, Countdown;
  }

  lemma {:induction false} RunBegins(d: Daemon, es: seq<LifecycleModel.Event>, t: Daemon)
    requires LifecycleModel.Inv(d) && Reaches(d, es, t) && !Begun(d) && Begun(t)
    ensures exists k :: 0 <= k < |es| && BeginsAt(d, es, k) && (es[k].RequestShutdown? || es[k].Poll?)
                        && t.shutdown.closing.total == |d.closeables| + ResourcesIn(es[..k])
    decreases |es|
  {
    hide LifecycleModel.Inv, LifecycleModel.Step, LifecycleModel.Enabled;
    assert es != [];
    LifecycleModel.StepKeeps(d, es[0]);
    var next := LifecycleModel.Step(d, es[0]);
    if Begun(next) {
      BeginningRecords(d, es[0]);
      ClosingTotalKept(next, es[1..], t);
      assert es[..0] == [] && BeginsAt(d, es, 0);
    } else {
      StepRegisters(d, es[0]);
      RunBegins(next, es[1..], t);
      var k :| 0 <= k < |es[1..]| && BeginsAt(next, es[1..], k) && (es[1..][k].RequestShutdown? || es[1..][k].Poll?)
               && t.shutdown.closing.total == |next.closeables| + ResourcesIn(es[1..][..k]);
      assert [es[0]][1..] == [];
      assert es[..k + 1][1..] == es[1..][..k];
      assert BeginsAt(d, es, k + 1) && es[k + 1] == es[1..][k];
    }
  }

  /** `c` is a release that has come to its end: it has closed the first `total`
      resources of `closed`, each once, last registered first, and no other. */
  ghost predicate ReleasedExactly(c: Closing, closed: seq<bool>, total: nat) {
    && |c.closes| == total <= |closed|
    && (forall i :: 0 <= i < total ==> c.closes[i].index == total - 1 - i)
    && (forall i :: 0 <= i < |closed| ==> (closed[i] <==> i < total))
  }

  lemma DoneReleases(t: Daemon)
    requires LifecycleModel.Inv(t) && t.shutdown.Done?
    ensures ReleasedExactly(t.shutdown.closing, t.closeables, t.shutdown.closing.total)
  {
    var c := t.shutdown.closing;
    CountdownCovers(c.total);
    hide Countdown;
    assert Indices(c.closes) + c.remaining == Indices(c.closes);
    forall i | 0 <= i < |t.closeables| ensures t.closeables[i] <==> i < c.total {
      assert i in Indices(c.closes) <==> i in Countdown(c.total);
    }
  }

  /** A finished shutdown has released every resource that was registered before the
      event that began the release, a request for shutdown or a poll: each exactly
      once, last registered first, and no other.  Which of them failed makes no
      difference. */
  lemma ReleasedInReverse(d: Daemon, es: seq<LifecycleModel.Event>, t: Daemon)
    requires RunFromFresh(d, es, t) && t.shutdown.Done?
    ensures |t.closeables| == ResourcesIn(es)
    ensures exists k :: 0 <= k < |es| && (FreshInv(d); BeginsAt(d, es, k)) && (es[k].RequestShutdown? || es[k].Poll?)
                        && ReleasedExactly(t.shutdown.closing, t.closeables, ResourcesIn(es[..k]))
  {
    FreshInv(d);
    RunsKeep(d, es, t);
    RunRegisters(d, es, t);
    RunBegins(d, es, t);
    DoneReleases(t);
  }

  /** In every run each registered hook has been called exactly once, in order of
      registration, as soon as draining has begun, and none before. */
  lemma HooksCalledOnce(d: Daemon, es: seq<LifecycleModel.Event>, t: Daemon)
    requires RunFromFresh(d, es, t)
    ensures t.called == if t.phase.Accepting? then [] else HooksIn(es)
  {
    FreshInv(d);
    RunsKeep(d, es, t);
    RunRegisters(d, es, t);
  }

  /** What `n` polls so far say about the shutdown. */
  ghost predicate Polled(d: Daemon, n: nat) {
    match d.shutdown
    case NotRequested => n == 0
    case Waiting(_, polls, _) => n == polls
    case Releasing(_) => n == 0 || (n - 1) * DRAIN_POLL_MS < d.timeout
    case Done(_) => n == 0 || (n - 1) * DRAIN_POLL_MS < d.timeout
  }

  lemma StepPolls(d: Daemon, e: LifecycleModel.Event, n: nat)
    requires LifecycleModel.Inv(d) && LifecycleModel.Enabled(d, e) && Polled(d, n)
    ensures Polled(LifecycleModel.Step(d, e), n + PollsIn([e])) && LifecycleModel.Step(d, e).timeout == d.timeout
  {
    assert [e][1..] == [];
    if e.BeginDraining? || e.RequestShutdown? {
      DrainKeeps(d);
    }
    hide LanesSound, AllIdle, AllStopped, W.Inv, Countdown, Drained, LaneModel.Step, LaneModel.Enabled, W.Step, ClosingSound;
    if e.CloseNext? {
      RemainingRegistered(d);
    }
  }

  lemma {:induction false} RunPolls(d: Daemon, es: seq<LifecycleModel.Event>, t: Daemon, n: nat)
    requires LifecycleModel.Inv(d) && Reaches(d, es, t) && Polled(d, n)
    ensures Polled(t, n + PollsIn(es)) && t.timeout == d.timeout
    decreases |es|
  {
    hide LifecycleModel.Inv, LifecycleModel.Step, LifecycleModel.Enabled, Polled;
    if es != [] {
      LifecycleModel.StepKeeps(d, es[0]);
      StepPolls(d, es[0], n);
      assert [es[0]][1..] == [];
      RunPolls(LifecycleModel.Step(d, es[0]), es[1..], t, n + PollsIn([es[0]]));
    }
  }

  /** The wait ends: over a whole run there is at most one poll for every ten
      milliseconds of the timeout and one more, however late the timers fire; and a
      poll once the time is up starts the release. */
  lemma PollsBounded(d: Daemon, es: seq<LifecycleModel.Event>, t: Daemon)
    requires RunFromFresh(d, es, t)
    ensures PollsIn(es) * DRAIN_POLL_MS < t.timeout + DRAIN_POLL_MS
    ensures LifecycleModel.Enabled(t, Poll) && t.now >= t.shutdown.since + t.timeout ==>
              (FreshInv(d); RunsKeep(d, es, t); LifecycleModel.Step(t, Poll).shutdown.Releasing?)
  {
    FreshInv(d);
    RunsKeep(d, es, t);
    RunPolls(d, es, t, 0);
  }

  /** A second request for shutdown changes nothing. */
  lemma ShutdownShared(d: Daemon)
    requires LifecycleModel.Inv(d)
    ensures var once := LifecycleModel.Step(d, RequestShutdown);
            && !once.shutdown.NotRequested?
            && (LifecycleModel.StepKeeps(d, RequestShutdown); LifecycleModel.Step(once, RequestShutdown) == once)
  {
    LifecycleModel.StepKeeps(d, RequestShutdown);
  }

  /** A resource registered after releasing began is never released. */
  lemma LateResourceNeverReleased(d: Daemon, es: seq<LifecycleModel.Event>, t: Daemon)
    requires LifecycleModel.Inv(d) && Begun(d) && Reaches(d, es, t)
    ensures forall i :: |d.closeables| <= i < |t.closeables| ==> !t.closeables[i]
  {
    RunsKeep(d, es, t);
    ClosingTotalKept(d, es, t);
    var c := t.shutdown.closing;
    CountdownCovers(c.total);
    hide Countdown;
    forall i | |d.closeables| <= i < |t.closeables| ensures i !in Indices(c.closes) {
      assert i !in Indices(c.closes) + c.remaining;
    }
  }

  /** Whether each release failed, in order. */
  function FailuresIn(es: seq<LifecycleModel.Event>): seq<bool> {
    if es == [] then [] else (if es[0].CloseNext? then [es[0].failed] else []) + FailuresIn(es[1..])
  }

  function Outcomes(d: Daemon): (r: seq<bool>)
    ensures |r| == if Begun(d) then |d.shutdown.closing.closes| else 0
    ensures Begun(d) ==> forall i :: 0 <= i < |r| ==> r[i] == d.shutdown.closing.closes[i].failed
  {
    if !Begun(d) then []
    else seq(|d.shutdown.closing.closes|, i requires 0 <= i < |d.shutdown.closing.closes| => d.shutdown.closing.closes[i].failed)
  }

  lemma StepOutcomes(d: Daemon, e: LifecycleModel.Event)
    requires LifecycleModel.Inv(d) && LifecycleModel.Enabled(d, e)
    ensures Outcomes(LifecycleModel.Step(d, e)) == Outcomes(d) + FailuresIn([e])
  {
    assert [e][1..] == [];
    if e.BeginDraining? || e.RequestShutdown? {
      DrainKeeps(d);
    }
    if e.CloseNext? {
      RemainingRegistered(d);
      assert !d.closeables[d.shutdown.closing.remaining[0]];
    }
    hide LifecycleModel.Inv, Drained, AllIdle, LaneModel.Step, LaneModel.Enabled, W.Step, Countdown;
  }

  /** Every release is recorded with its own outcome, in order. */
  lemma {:induction false} OutcomesRecorded(d: Daemon, es: seq<LifecycleModel.Event>, t: Daemon)
    requires LifecycleModel.Inv(d) && Reaches(d, es, t)
    ensures Outcomes(t) == Outcomes(d) + FailuresIn(es)
    decreases |es|
  {
    hide LifecycleModel.Inv, LifecycleModel.Step, LifecycleModel.Enabled, Outcomes;
    if es != [] {
      LifecycleModel.StepKeeps(d, es[0]);
      StepOutcomes(d, es[0]);
      OutcomesRecorded(LifecycleModel.Step(d, es[0]), es[1..], t);
      assert [es[0]][1..] == [];
    }
  }

  lemma {:induction false} ResourcesSplit(es: seq<LifecycleModel.Event>, k: nat)
    requires k <= |es|
    ensures ResourcesIn(es) == ResourcesIn(es[..k]) + ResourcesIn(es[k..])
    decreases k
  {
    if k == 0 {
      assert es[..0] == [] && es[0..] == es;
    } else {
      ResourcesSplit(es[1..], k - 1);
      assert es[..k][1..] == es[1..][..k - 1] && es[1..][k - 1..] == es[k..];
    }
  }

  /** A finished shutdown has released everything if and only if nothing was
      registered from the event on that began the release. */
  lemma AllReleasedIff(d: Daemon, es: seq<LifecycleModel.Event>, t: Daemon)
    requires RunFromFresh(d, es, t) && t.shutdown.Done?
    ensures exists k :: 0 <= k < |es| && (FreshInv(d); BeginsAt(d, es, k))
                        && ((forall i :: 0 <= i < |t.closeables| ==> t.closeables[i]) <==> ResourcesIn(es[k..]) == 0)
  {
    FreshInv(d);
    ReleasedInReverse(d, es, t);
    var k :| 0 <= k < |es| && BeginsAt(d, es, k) && (es[k].RequestShutdown? || es[k].Poll?)
             && ReleasedExactly(t.shutdown.closing, t.closeables, ResourcesIn(es[..k]));
    ResourcesSplit(es, k);
    if ResourcesIn(es[k..]) > 0 {
      assert !t.closeables[ResourcesIn(es[..k])];
    }
  }

  lemma IdleDrains(d: Daemon)
    requires Fresh(d) && AllIdle(d.lanes)
    ensures AllIdle(Drained(d).lanes) && Drained(d).closeables == []
  {
    hide LanesSound, W.Inv;
    var open := d.(phase := Draining, hooks := []);
    assert CallAll(open, d.hooks) == open;
  }

  lemma IdleReleasesAtOnce(d: Daemon)
    requires Fresh(d) && AllIdle(d.lanes)
    ensures (FreshInv(d);
             var a := LifecycleModel.Step(d, RequestShutdown);
             && LifecycleModel.Inv(a)
             && a.shutdown.Releasing? && a.shutdown.closing.remaining == [] && a.closeables == [])
  {
    FreshInv(d);
    LifecycleModel.StepKeeps(d, RequestShutdown);
    IdleDrains(d);
    hide LanesSound, AllIdle, W.Inv, Drained, LifecycleModel.Inv;
  }

  lemma LateRegistration(a: Daemon, e: LifecycleModel.Event, f: LifecycleModel.Event)
    requires LifecycleModel.Inv(a) && e.RegisterCloseable? && f.Finish?
    requires a.shutdown.Releasing? && a.shutdown.closing.remaining == [] && a.closeables == []
    ensures exists t :: Reaches(a, [e, f], t) && t.phase.Closed? && t.closeables == [false]
  {
    LifecycleModel.StepKeeps(a, e);
    hide LifecycleModel.Inv;
    var b := LifecycleModel.Step(a, e);
    LifecycleModel.StepKeeps(b, f);
    var t := LifecycleModel.Step(b, f);
    assert Reaches(t, [], t);
    assert [f][1..] == [] && Reaches(b, [f], t);
    assert [e, f][1..] == [f] && Reaches(a, [e, f], t);
  }

  lemma IdleLateRegistration(d: Daemon, request: LifecycleModel.Event, e: LifecycleModel.Event, f: LifecycleModel.Event)
    requires Fresh(d) && AllIdle(d.lanes) && request.RequestShutdown? && e.RegisterCloseable? && f.Finish?
    ensures exists t :: RunFromFresh(d, [request, e, f], t) && t.phase.Closed? && t.closeables == [false]
  {
    IdleReleasesAtOnce(d);
    FreshInv(d);
    hide Fresh, AllIdle, LifecycleModel.Inv, LifecycleModel.Step;
    LifecycleModel.StepKeeps(d, request);
    var a := LifecycleModel.Step(d, request);
    LateRegistration(a, e, f);
    var t :| Reaches(a, [e, f], t) && t.phase.Closed? && t.closeables == [false];
    assert [request, e, f][1..] == [e, f] && Reaches(d, [request, e, f], t);
    assert RunFromFresh(d, [request, e, f], t);
  }

  /** A newly constructed daemon with one idle lane. */
  function OneLane(): Daemon {
    Daemon(Accepting, [LaneModel.Open(Capacity(1, 0))], W.New(W.Policy(2, 1)), 0, 0, [], [], [], [], NotRequested, 10, 0)
  }

  /** One run of it: the resource registered while the shutdown releases is still
      open when the shutdown has finished. */
  lemma LateResourceStaysOpen()
    ensures exists t :: RunFromFresh(OneLane(), [RequestShutdown, RegisterCloseable, Finish], t)
                        && t.phase.Closed? && t.closeables == [false]
  {
    LaneModel.OpenInv(Capacity(1, 0));
    hide RunFromFresh;
    IdleLateRegistration(OneLane(), RequestShutdown, RegisterCloseable, Finish);
  }
}
