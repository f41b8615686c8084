/** The scheduler object: its methods update the fields in place and are proved
    to compute the steps of `SchedulerModel`. */
module EmbeddingRuntime {
  import opened Wrappers
  import opened Submissions
  import opened SchedulerModel
  import opened SchedulerInvariant

  class EmbeddingRuntimeScheduler {
    const profile: Profile
    var accepting: bool
    var active: nat
    var resolveQueue: seq<Entry<Priority>>
    var backgroundQueue: seq<Entry<Priority>>
    var resolveStarts: nat
    var backgroundStarts: nat
    var resolveReservations: nat
    var eventLoopLagMs: real
    var sampleAt: Option<real>
    var promotionAt: Option<real>
    var settled: set<nat>
    var aborted: set<nat>
    var now: real          // what the clock reads
    var submitted: nat
    ghost var ledger: Ledger<Priority>

    ghost function State(): Scheduler
      reads this
    {
      Scheduler(profile, accepting, active, resolveQueue, backgroundQueue, resolveStarts, backgroundStarts,
                resolveReservations, eventLoopLagMs, sampleAt, promotionAt, settled, aborted, now, ledger)
    }

    ghost predicate Valid()
      reads this
    {
      Inv(State()) && submitted == |ledger.subs|
    }

    constructor (profile: Profile, now: real)
      requires ProfileValid(profile)
      ensures Valid() && State() == Open(profile, now)
    {
      this.profile := profile;
      accepting, active, resolveQueue, backgroundQueue := true, 0, [], [];
      resolveStarts, backgroundStarts, resolveReservations, eventLoopLagMs := 0, 0, 0, 0.0;
      sampleAt, promotionAt, settled, aborted := None, None, {}, {};
      this.now, submitted, ledger := now, 0, Ledger([], []);
      new;
      hide Inv, Evolves;
      OpenInv(profile, now);
    }

    method IsIdle() returns (idle: bool)
      ensures idle <==> active == 0 && resolveQueue == [] && backgroundQueue == []
    {
      idle := active == 0 && resolveQueue == [] && backgroundQueue == [];
    }

    // ---------------------------------------------------------------- timers

    method ScheduleBackgroundPromotion(delayMs: real)
      modifies this`promotionAt
      ensures State() == SchedulePromotion(old(State()), delayMs)
    {
      if !accepting || backgroundQueue == [] || promotionAt.Some? {
        return;
      }
      promotionAt := Some(now + delayMs);
    }

    method CancelBackgroundPromotion()
      modifies this`promotionAt
      ensures State() == CancelPromotion(old(State()))
    {
      promotionAt := None;
    }

    method ScheduleSample()
      modifies this`sampleAt
      ensures State() == ArmSample(old(State()))
    {
      sampleAt := Some(now + profile.sampleMs);
    }

    method StartMonitoring()
      requires Valid()
      modifies this`sampleAt
      ensures Valid() && State() == Monitored(old(State()))
    {
      hide Inv, Evolves;
      ScopesKeep(State());
      if !accepting || sampleAt.Some? {
        return;
      }
      ScheduleSample();
    }

    /** The promotion timer's callback. */
    method FirePromotion()
      requires Valid() && promotionAt.Some?
      modifies this
      ensures Valid() && InRange(old(State())) && State() == PromotionFired(old(State()))
    {
      hide Inv, Evolves, Drain;
      TimersKeep(State());
      promotionAt := None;
      DrainQueues();
    }

    /** The sampler's callback. */
    method FireSample()
      requires Valid() && sampleAt.Some?
      modifies this
      ensures Valid() && InRange(old(State())) && State() == SampleFired(old(State()))
    {
      hide Inv, Evolves, Drain;
      TimersKeep(State());
      var expectedAt := sampleAt.value;
      sampleAt := None;
      if !accepting {
        return;
      }
      var late := now - expectedAt;
      eventLoopLagMs := if late > 0.0 then late else 0.0;
      DrainQueues();
      ScheduleSample();
    }

    method PassTime(to: real)
      requires Valid() && to >= now
      modifies this`now
      ensures Valid() && State() == old(State()).(now := to)
    {
      hide Inv, Evolves;
      StepKeeps(State(), Pass(to));
      now := to;
    }

    // ------------------------------------------------------------ submission

    method Submit(priority: Priority, signal: Option<nat>) returns (id: nat, fate: Fate)
      requires Valid()
      modifies this
      ensures Valid() && State() == Run(old(State()), priority, signal)
      ensures id == |old(ledger.subs)| && id < |ledger.subs| && fate == ledger.subs[id].fate
    {
      hide Inv, Evolves, RunResolve, RunBackground;
      RunKeeps(State(), priority, signal);
      id := submitted;
      submitted := submitted + 1;
      if !accepting {
        ledger := Enter(ledger, priority, Closed);
        return id, Closed;
      }
      if signal.Some? && signal.value in aborted {
        ledger := Enter(ledger, priority, CancelledAtEntry);
        return id, CancelledAtEntry;
      }
      if priority.Resolve? {
        CancelBackgroundPromotion();
        fate := AdmitResolve(id, signal);
      } else {
        fate := AdmitBackground(id, signal);
      }
    }

    method AdmitResolve(id: nat, signal: Option<nat>) returns (fate: Fate)
      requires id == |ledger.subs|
      modifies this`resolveQueue, this`ledger, this`resolveStarts, this`backgroundStarts, this`active
      ensures State() == RunResolve(old(State()), signal)
      ensures |ledger.subs| == id + 1 && fate == ledger.subs[id].fate
    {
      if active < profile.concurrency {
        ledger := Enter(ledger, Resolve, Waiting);
        StartOperation(Resolve, id);
        return Running;
      }
      if |resolveQueue| >= profile.resolveQueueDepth {
        ledger := Enter(ledger, Resolve, Refused);
        return Refused;
      }
      ledger := Enter(ledger, Resolve, Waiting);
      resolveQueue := resolveQueue + [Entry(id, Resolve, signal)];
      return Waiting;
    }

    method AdmitBackground(id: nat, signal: Option<nat>) returns (fate: Fate)
      requires id == |ledger.subs|
      modifies this`backgroundQueue, this`ledger, this`promotionAt
      ensures State() == RunBackground(old(State()), signal)
      ensures |ledger.subs| == id + 1 && fate == ledger.subs[id].fate
    {
      if |backgroundQueue| >= profile.backgroundQueueDepth {
        ledger := Enter(ledger, Background, Refused);
        return Refused;
      }
      ledger := Enter(ledger, Background, Waiting);
      backgroundQueue := backgroundQueue + [Entry(id, Background, signal)];
      ScheduleBackgroundPromotion(profile.yieldMs);
      return Waiting;
    }

    method StartOperation(priority: Priority, id: nat)
      requires id < |ledger.subs|
      modifies this`resolveStarts, this`backgroundStarts, this`active, this`ledger
      ensures State() == Start(old(State()), priority, id) && |ledger.subs| == |old(ledger.subs)|
    {
      if priority.Resolve? {
        resolveStarts := resolveStarts + 1;
      } else {
        backgroundStarts := backgroundStarts + 1;
      }
      active := active + 1;
      ledger := Begin(ledger, id);
    }

    /** What runs when an operation settles, either way. */
    method SettleOperation(priority: Priority, id: nat)
      requires Valid() && id < |ledger.subs| && ledger.subs[id] == Submission(priority, Running)
      modifies this
      ensures Valid() && InRange(old(State())) && old(State().active) > 0 && State() == Settled(old(State()), id)
    {
      hide Inv, Evolves, Drain;
      SettledKeeps(State(), id);
      active := active - 1;
      ledger := Mark(ledger, id, Finished);
      if resolveQueue != [] {
        DrainQueues();
      } else if backgroundQueue != [] {
        ScheduleBackgroundPromotion(if priority.Resolve? then profile.quietMs else profile.yieldMs);
      }
    }

    /** Fills free slots: Resolve entries first, background entries when nothing
        holds them. */
    method DrainQueues()
      requires InRange(State())
      modifies this`resolveQueue, this`backgroundQueue, this`settled, this`ledger,
               this`resolveStarts, this`backgroundStarts, this`active
      ensures State() == Drain(old(State())) && |ledger.subs| == |old(ledger.subs)|
    {
      hide Fill, Promote;
      if !accepting {
        return;
      }
      ghost var before := State();
      while active < profile.concurrency
        invariant InRange(State()) && Fill(State()) == Fill(before)
        invariant |ledger.subs| == |old(ledger.subs)|
        decreases |resolveQueue| + |backgroundQueue|
      {
        FillTakes(State());
        var entry;
        if resolveQueue != [] {
          entry := resolveQueue[0];
          resolveQueue := resolveQueue[1..];
        } else if resolveReservations > 0 || promotionAt.Some? || eventLoopLagMs > profile.warningMs || backgroundQueue == [] {
          return;
        } else {
          entry := backgroundQueue[0];
          backgroundQueue := backgroundQueue[1..];
        }
        PromoteEntry(entry);
      }
      FillTakes(State());
    }

    /** Drops an entry that is settled or cancelled, starts any other. */
    method PromoteEntry(entry: Entry<Priority>)
      requires entry.id < |ledger.subs|
      modifies this`settled, this`ledger, this`resolveStarts, this`backgroundStarts, this`active
      ensures State() == Promote(old(State()), entry) && |ledger.subs| == |old(ledger.subs)|
    {
      if entry.id in settled || (entry.signal.Some? && entry.signal.value in aborted) {
        if entry.id !in settled {
          settled := settled + {entry.id};
          ledger := Mark(ledger, entry.id, CancelledWaiting);
        }
        return;
      }
      settled := settled + {entry.id};
      StartOperation(entry.kind, entry.id);
    }

    // ---------------------------------------------------------------- scopes

    method EnterResolveScope()
      requires Valid()
      modifies this`promotionAt, this`resolveReservations
      ensures Valid() && State() == Entered(old(State()))
    {
      hide Inv, Evolves;
      ScopesKeep(State());
      CancelBackgroundPromotion();
      resolveReservations := resolveReservations + 1;
    }

    method ExitResolveScope()
      requires Valid() && resolveReservations > 0
      modifies this`promotionAt, this`resolveReservations
      ensures Valid() && State() == Exited(old(State()))
    {
      hide Inv, Evolves;
      ScopesKeep(State());
      resolveReservations := resolveReservations - 1;
      if resolveReservations == 0 {
        CancelBackgroundPromotion();
        ScheduleBackgroundPromotion(profile.quietMs);
      }
    }

    // ---------------------------------------------------- cancellation, stop

    /** A caller's signal fires: the listeners are the entries waiting under it. */
    method AbortSignal(signal: nat)
      requires Valid()
      modifies this
      ensures Valid() && State() == Aborted(old(State()), signal)
    {
      hide Inv, Evolves, Aborted, CancelEach;
      AbortedKeeps(State(), signal);
      AbortReady(State(), signal);
      aborted := aborted + {signal};
      CancelResolve(resolveQueue, signal);
      CancelBackground(backgroundQueue, signal);
    }

    method CancelResolve(listeners: seq<Entry<Priority>>, signal: nat)
      requires forall k :: 0 <= k < |listeners| ==> listeners[k].id < |ledger.subs|
      modifies this`resolveQueue, this`settled, this`ledger
      ensures Held(resolveQueue, settled, ledger) == CancelEach(old(Held(resolveQueue, settled, ledger)), listeners, signal)
      ensures |ledger.subs| == |old(ledger.subs)|
    {
      hide CancelOne;
      var i := 0;
      while i < |listeners|
        invariant 0 <= i <= |listeners| && |ledger.subs| == |old(ledger.subs)|
        invariant CancelEach(Held(resolveQueue, settled, ledger), listeners[i..], signal)
               == CancelEach(old(Held(resolveQueue, settled, ledger)), listeners, signal)
      {
        if listeners[i].signal == Some(signal) {
          CancelQueuedResolve(listeners[i]);
        }
        i := i + 1;
      }
    }

    /** The abort listener of one queued Resolve entry. */
    method CancelQueuedResolve(entry: Entry<Priority>)
      requires entry.id < |ledger.subs|
      modifies this`resolveQueue, this`settled, this`ledger
      ensures Held(resolveQueue, settled, ledger) == CancelOne(old(Held(resolveQueue, settled, ledger)), entry)
      ensures |ledger.subs| == |old(ledger.subs)|
    {
      if entry.id in settled {
        return;
      }
      settled := settled + {entry.id};
      resolveQueue := Remove(resolveQueue, entry.id);
      ledger := Mark(ledger, entry.id, CancelledWaiting);
    }

    method CancelBackground(listeners: seq<Entry<Priority>>, signal: nat)
      requires forall k :: 0 <= k < |listeners| ==> listeners[k].id < |ledger.subs|
      modifies this`backgroundQueue, this`settled, this`ledger
      ensures Held(backgroundQueue, settled, ledger) == CancelEach(old(Held(backgroundQueue, settled, ledger)), listeners, signal)
      ensures |ledger.subs| == |old(ledger.subs)|
    {
      hide CancelOne;
      var i := 0;
      while i < |listeners|
        invariant 0 <= i <= |listeners| && |ledger.subs| == |old(ledger.subs)|
        invariant CancelEach(Held(backgroundQueue, settled, ledger), listeners[i..], signal)
               == CancelEach(old(Held(backgroundQueue, settled, ledger)), listeners, signal)
      {
        if listeners[i].signal == Some(signal) {
          CancelQueuedBackground(listeners[i]);
        }
        i := i + 1;
      }
    }

    /** The abort listener of one queued background entry. */
    method CancelQueuedBackground(entry: Entry<Priority>)
      requires entry.id < |ledger.subs|
      modifies this`backgroundQueue, this`settled, this`ledger
      ensures Held(backgroundQueue, settled, ledger) == CancelOne(old(Held(backgroundQueue, settled, ledger)), entry)
      ensures |ledger.subs| == |old(ledger.subs)|
    {
      if entry.id in settled {
        return;
      }
      settled := settled + {entry.id};
      backgroundQueue := Remove(backgroundQueue, entry.id);
      ledger := Mark(ledger, entry.id, CancelledWaiting);
    }

    /** Stops new work and refuses what has not started. */
    method StopAccepting()
      requires Valid()
      modifies this
      ensures Valid() && State() == Stopped(old(State()))
    {
      hide Inv, Evolves, CloseEach, Stopped;
      StoppedKeeps(State());
      StopReady(State());
      if !accepting {
        return;
      }
      accepting := false;
      sampleAt := None;
      promotionAt := None;
      var taken := resolveQueue + backgroundQueue;
      resolveQueue, backgroundQueue := [], [];
      CloseAll(taken);
    }

    method CloseAll(entries: seq<Entry<Priority>>)
      requires forall k :: 0 <= k < |entries| ==> entries[k].id < |ledger.subs|
      modifies this`settled, this`ledger
      ensures Held([], settled, ledger) == CloseEach(old(Held([], settled, ledger)), entries)
      ensures |ledger.subs| == |old(ledger.subs)|
    {
      var i := 0;
      while i < |entries|
        invariant 0 <= i <= |entries| && |ledger.subs| == |old(ledger.subs)|
        invariant CloseEach(Held([], settled, ledger), entries[i..]) == CloseEach(old(Held([], settled, ledger)), entries)
      {
        if entries[i].id !in settled {
          settled := settled + {entries[i].id};
          ledger := Mark(ledger, entries[i].id, ClosedWaiting);
        }
        i := i + 1;
      }
    }
  }

  lemma TakesInRange(s: Scheduler)
    requires InRange(s)
    ensures s.resolveQueue != [] ==> InRange(TakeResolve(s))
    ensures s.backgroundQueue != [] ==> InRange(TakeBackground(s))
  {
  }

  /** What filling free slots does next. */
  lemma FillTakes(s: Scheduler)
    requires InRange(s)
    ensures s.active >= s.profile.concurrency ==> Fill(s) == s
    ensures s.active < s.profile.concurrency && s.resolveQueue != [] ==>
              InRange(TakeResolve(s)) && Fill(s) == Fill(TakeResolve(s))
    ensures s.active < s.profile.concurrency && s.resolveQueue == [] ==>
              if Withheld(s) || s.backgroundQueue == [] then Fill(s) == s
              else InRange(TakeBackground(s)) && Fill(s) == Fill(TakeBackground(s))
  {
    hide InRange, TakeResolve, TakeBackground, Withheld;
    TakesInRange(s);
  }

  /** A queue without the first entry of this id, if there is one. */
  method Remove(queue: seq<Entry<Priority>>, id: nat) returns (rest: seq<Entry<Priority>>)
    ensures rest == WithoutFirst(queue, id)
  {
    var index := 0;
    while index < |queue| && queue[index].id != id
      invariant 0 <= index <= |queue|
      invariant forall k :: 0 <= k < index ==> queue[k].id != id
    {
      index := index + 1;
    }
    WithoutFirstAt(queue, id, index);
    rest := if index < |queue| then queue[..index] + queue[index + 1..] else queue;
  }

  /** Dispatching a signal queue by queue is the step `Aborted`. */
  lemma AbortReady(s: Scheduler, signal: nat)
    requires Inv(s)
    ensures forall k :: 0 <= k < |s.resolveQueue| ==> s.resolveQueue[k].id < |s.ledger.subs|
    ensures forall k :: 0 <= k < |s.backgroundQueue| ==> s.backgroundQueue[k].id < |s.ledger.subs|
    ensures var r := CancelEach(Held(s.resolveQueue, s.settled, s.ledger), s.resolveQueue, signal);
            && |r.ledger.subs| == |s.ledger.subs|
            && var b := CancelEach(Held(s.backgroundQueue, r.settled, r.ledger), s.backgroundQueue, signal);
            Aborted(s, signal) == s.(aborted := s.aborted + {signal}, resolveQueue := r.queue, backgroundQueue := b.queue,
                                     settled := b.settled, ledger := b.ledger)
  {
    CancelledByListeners(Held(s.resolveQueue, s.settled, s.ledger), signal);
    var r := Cancelled(Held(s.resolveQueue, s.settled, s.ledger), signal);
    BackgroundUntouched(s, signal);
    CancelledByListeners(Held(s.backgroundQueue, r.settled, r.ledger), signal);
  }

  lemma BackgroundUntouched(s: Scheduler, signal: nat)
    requires Inv(s)
    ensures var r := Cancelled(Held(s.resolveQueue, s.settled, s.ledger), signal);
            Sorted(s.backgroundQueue) && Unsettled(s.backgroundQueue, Held(s.backgroundQueue, r.settled, r.ledger))
  {
    var ids := SignalledIds(s.resolveQueue, signal);
    assert forall id :: id in ids ==> s.ledger.subs[id].kind.Resolve?;
    assert forall i :: 0 <= i < |s.backgroundQueue| ==> s.ledger.subs[s.backgroundQueue[i].id].kind.Background?;
  }

  /** Refusing the taken entries one by one is the step `Stopped`. */
  lemma StopReady(s: Scheduler)
    requires Inv(s)
    ensures !s.accepting ==> Stopped(s) == s
    ensures var taken := s.resolveQueue + s.backgroundQueue;
            && (forall k :: 0 <= k < |taken| ==> taken[k].id < |s.ledger.subs|)
            && var c := CloseEach(Held([], s.settled, s.ledger), taken);
            s.accepting ==>
              Stopped(s) == s.(accepting := false, sample := None, promotion := None, resolveQueue := [], backgroundQueue := [],
                               settled := c.settled, ledger := c.ledger)
  {
    var taken := s.resolveQueue + s.backgroundQueue;
    TakenReady(s, taken);
    hide Inv, Evolves, CloseEach, MarkAll;
    CloseEachIs(Held([], s.settled, s.ledger), taken);
    assert Ids(taken) == Ids(s.resolveQueue) + Ids(s.backgroundQueue);
  }

  lemma TakenReady(s: Scheduler, taken: seq<Entry<Priority>>)
    requires Inv(s) && taken == s.resolveQueue + s.backgroundQueue
    ensures Unsettled(taken, Held([], s.settled, s.ledger))
    ensures forall i, j :: 0 <= i < j < |taken| ==> taken[i].id != taken[j].id
  {
    assert forall i :: 0 <= i < |s.resolveQueue| ==> s.ledger.subs[s.resolveQueue[i].id].kind.Resolve?;
    assert forall i :: 0 <= i < |s.backgroundQueue| ==> s.ledger.subs[s.backgroundQueue[i].id].kind.Background?;
  }
}
