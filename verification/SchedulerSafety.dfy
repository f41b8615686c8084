/** What holds in every run of the embedding scheduler. */
module SchedulerSafety {
  import opened Wrappers
  import opened Submissions
  import opened SchedulerModel
  import opened SchedulerInvariant

  // --------------------------------------------------------- no lost wake-up

  /** In every reachable state that accepts and has background work waiting, a
      future drain is guaranteed, whatever cancelled the promotion timer on the way. */
  lemma NoLostWakeUp(profile: Profile, now: real, es: seq<Event>, t: Scheduler)
    requires RunFromOpen(profile, now, es, t)
    ensures t.accepting && t.backgroundQueue != [] ==>
              || t.promotion.Some?
              || (exists id :: 0 <= id < |t.ledger.subs| && t.ledger.subs[id].fate.Running?)
              || t.reservations > 0
              || (Suppressed(t) && t.sample.Some?)
  {
    OpenInv(profile, now);
    RunsKeep(Open(profile, now), es, t);
    if t.active > 0 {
      RunningExists(t);
    }
  }

  lemma RunningExists(s: Scheduler)
    requires BooksOf(s) && s.active > 0
    ensures exists id :: 0 <= id < |s.ledger.subs| && s.ledger.subs[id].fate.Running?
  {
    assert With(s.ledger, Running) != {};
    var id :| id in With(s.ledger, Running);
  }

  // --------------------------------------------------------- priority safety

  /** A background operation starts only when a timer fires, and only while the
      scheduler accepts, no Resolve entry waits, no request holds a reservation,
      no promotion is pending and the measured lag is within the warning limit. */
  lemma BackgroundStartsGuarded(s: Scheduler, e: Event)
    requires Inv(s) && Enabled(s, e) && Step(s, e).backgroundStarts > s.backgroundStarts
    ensures e.PromotionDue? || e.SampleDue?
    ensures s.accepting && s.resolveQueue == [] && s.reservations == 0 && s.active < s.profile.concurrency
    ensures var t := Step(s, e); t.promotion.None? && !Suppressed(t) && t.active <= t.profile.concurrency
    ensures e.SampleDue? ==> s.promotion.None?
  {
    hide Books, Evolves;
    match e
    case Settle(id) =>
      SettleStartsNoBackground(s, id);
    case PromotionDue =>
      FillKeeps(s.(promotion := None));
    case SampleDue =>
      var late := s.now - s.sample.value;
      FillKeeps(s.(sample := None).(lag := if late > 0.0 then late else 0.0));
    case _ =>
  }

  /** A settled operation never starts background work in the same turn. */
  lemma SettleStartsNoBackground(s: Scheduler, id: nat)
    requires Inv(s) && id < |s.ledger.subs| && s.ledger.subs[id].fate.Running?
    ensures InRange(s) && s.active > 0
    ensures Settled(s, id).backgroundStarts == s.backgroundStarts
    ensures s.resolveQueue != [] ==> Settled(s, id).active == s.active && |Settled(s, id).resolveQueue| == |s.resolveQueue| - 1
    ensures s.resolveQueue == [] ==> Settled(s, id).active == s.active - 1
  {
    hide Books, Evolves;
    BooksRange(s);
    FinishBase(s, id);
    var t := s.(active := s.active - 1, ledger := Mark(s.ledger, id, Finished));
    if t.resolveQueue != [] {
      BooksRange(t);
      FillKeeps(t);
      TakeResolveKeeps(t);
      assert TakeResolve(t).active == s.profile.concurrency;
    }
  }

  // ------------------------------------------------------------ no overtaking

  /** Operations of one priority start in the order they were submitted, and
      nothing that started was submitted after an entry of its priority that
      still waits. */
  lemma NoOvertaking(profile: Profile, now: real, es: seq<Event>, t: Scheduler)
    requires RunFromOpen(profile, now, es, t)
    ensures forall i :: 0 <= i < |t.ledger.order| ==> t.ledger.order[i] < |t.ledger.subs|
    ensures forall i, j :: 0 <= i < j < |t.ledger.order| &&
              t.ledger.subs[t.ledger.order[i]].kind == t.ledger.subs[t.ledger.order[j]].kind
              ==> t.ledger.order[i] < t.ledger.order[j]
    ensures forall i, k :: 0 <= i < |t.ledger.order| && 0 <= k < |t.resolveQueue| &&
              t.ledger.subs[t.ledger.order[i]].kind.Resolve?
              ==> t.ledger.order[i] < t.resolveQueue[k].id
    ensures forall i, k :: 0 <= i < |t.ledger.order| && 0 <= k < |t.backgroundQueue| &&
              t.ledger.subs[t.ledger.order[i]].kind.Background?
              ==> t.ledger.order[i] < t.backgroundQueue[k].id
    ensures t.accepting && t.resolveQueue != [] ==> t.active == profile.concurrency
    ensures t.active <= profile.concurrency
  {
    OpenInv(profile, now);
    RunsKeep(Open(profile, now), es, t);
  }

  predicate Full(s: Scheduler, priority: Priority) {
    match priority
    case Resolve => s.active == s.profile.concurrency && |s.resolveQueue| == s.profile.resolveQueueDepth
    case Background => |s.backgroundQueue| == s.profile.backgroundQueueDepth
  }

  /** What a submission learns at once: it is refused for capacity only with its
      own queue full (and, for Resolve, every slot in use), and a Resolve
      operation starts at once only when no Resolve entry waits. */
  lemma AdmissionExactly(s: Scheduler, priority: Priority, signal: Option<nat>)
    requires Inv(s)
    ensures var t := Run(s, priority, signal); var id := |s.ledger.subs|;
            |t.ledger.subs| == id + 1 &&
            var fate := t.ledger.subs[id].fate;
            && (fate.Closed? <==> !s.accepting)
            && (fate.CancelledAtEntry? <==> s.accepting && Fired(signal, s.aborted))
            && (fate.Refused? <==> s.accepting && !Fired(signal, s.aborted) && Full(s, priority))
            && (fate.Running? ==> priority.Resolve? && s.resolveQueue == [])
            && (fate.Running? || fate.Waiting? || fate.Refused? || fate.Closed? || fate.CancelledAtEntry?)
            && (fate.Waiting? && priority.Background? ==> t.promotion.Some?)
  {
    hide Books;
  }

  // ------------------------------------------------------------- conservation

  /** Every submission is in exactly one place and the places add up; the starts
      are the operations running and finished. */
  lemma Conservation(s: Scheduler)
    requires Inv(s)
    ensures |s.ledger.subs| == |With(s.ledger, Refused)| + |With(s.ledger, Closed)| + |With(s.ledger, CancelledAtEntry)|
                               + |With(s.ledger, CancelledWaiting)| + |With(s.ledger, ClosedWaiting)|
                               + |s.resolveQueue| + |s.backgroundQueue| + s.active + |With(s.ledger, Finished)|
    ensures s.resolveStarts + s.backgroundStarts == s.active + |With(s.ledger, Finished)|
  {
    FatesPartition(s.ledger);
    WaitingIsQueues(s);
    StartsAddUp(s);
  }

  lemma StartsAddUp(s: Scheduler)
    requires BooksOf(s)
    ensures s.resolveStarts + s.backgroundStarts == s.active + |With(s.ledger, Finished)|
  {
    hide Sound, Tracks, Live;
    StartedSplit(s.ledger);
  }

  lemma StartedSplit(l: Ledger<Priority>)
    ensures |StartedOf(l, Resolve)| + |StartedOf(l, Background)| == |With(l, Running)| + |With(l, Finished)|
  {
    var r, b, u, f := StartedOf(l, Resolve), StartedOf(l, Background), With(l, Running), With(l, Finished);
    forall id: nat ensures id in r + b <==> id in u + f
    {
      if id < |l.subs| {
        match l.subs[id].kind case Resolve => case Background =>
      }
    }
    assert r + b == u + f;
    DisjointSizes(r, b);
    DisjointSizes(u, f);
  }

  lemma DisjointSizes(a: set<nat>, b: set<nat>)
    requires a !! b
    ensures |a + b| == |a| + |b|
  {
  }

  lemma WaitingIsQueues(s: Scheduler)
    requires BooksOf(s)
    ensures With(s.ledger, Waiting) == Ids(s.resolveQueue) + Ids(s.backgroundQueue)
    ensures |With(s.ledger, Waiting)| == |s.resolveQueue| + |s.backgroundQueue|
  {
    SortedIds(s.resolveQueue);
    SortedIds(s.backgroundQueue);
    QueuesDisjoint(s.ledger, s.resolveQueue, s.backgroundQueue);
    forall id | id in With(s.ledger, Waiting) ensures id in Ids(s.resolveQueue) + Ids(s.backgroundQueue)
    {
      match s.ledger.subs[id].kind
      case Resolve =>
        assert HasId(s.resolveQueue, id);
        QueuedId(s.resolveQueue, id);
      case Background =>
        assert HasId(s.backgroundQueue, id);
        QueuedId(s.backgroundQueue, id);
    }
    DisjointSizes(Ids(s.resolveQueue), Ids(s.backgroundQueue));
  }

  /** A fired signal cancels the submissions that wait under it, a stop closes all
      that wait, and neither touches any other. */
  lemma EndsExactly(s: Scheduler, fired: nat, id: nat)
    requires Inv(s) && id < |s.ledger.subs|
    ensures var t := Step(s, Abort(fired));
            |t.ledger.subs| == |s.ledger.subs| &&
            t.ledger.subs[id].fate
            == if WaitsUnder(s.resolveQueue, id, fired) || WaitsUnder(s.backgroundQueue, id, fired) then CancelledWaiting
               else s.ledger.subs[id].fate
    ensures var t := Step(s, Stop);
            |t.ledger.subs| == |s.ledger.subs| &&
            t.ledger.subs[id].fate
            == if s.ledger.subs[id].fate.Waiting? then ClosedWaiting else s.ledger.subs[id].fate
  {
    SignalledWaits(s.resolveQueue, id, fired);
    SignalledWaits(s.backgroundQueue, id, fired);
    WaitingIsQueues(s);
    assert id in With(s.ledger, Waiting) <==> s.ledger.subs[id].fate.Waiting?;
    hide Books, WaitsUnder, SignalledIds, Ids, With;
    NoIds();
  }

  lemma NoIds()
    ensures Ids<Priority>([]) == {}
  {
  }

  lemma QueuedId(queue: seq<Entry<Priority>>, id: nat)
    requires HasId(queue, id)
    ensures id in Ids(queue)
  {
    var i :| 0 <= i < |queue| && queue[i].id == id;
    assert queue[i] in queue;
  }

  lemma QueuesDisjoint(l: Ledger<Priority>, resolveQueue: seq<Entry<Priority>>, backgroundQueue: seq<Entry<Priority>>)
    requires Tracks(l, resolveQueue, Resolve) && Tracks(l, backgroundQueue, Background)
    ensures Ids(resolveQueue) !! Ids(backgroundQueue)
    ensures Ids(resolveQueue) + Ids(backgroundQueue) <= With(l, Waiting)
  {
    assert forall id :: id in Ids(resolveQueue) ==> id < |l.subs| && l.subs[id].kind.Resolve?;
    assert forall id :: id in Ids(backgroundQueue) ==> id < |l.subs| && l.subs[id].kind.Background?;
  }

  // --------------------------------------------------------------- after stop

  /** After a stop the queues stay empty, no operation starts, nothing is armed,
      and the running operations only go down. */
  lemma {:induction false} StoppedForever(s: Scheduler, es: seq<Event>, t: Scheduler)
    requires Inv(s) && !s.accepting && Reaches(s, es, t)
    ensures Inv(t) && !t.accepting && t.resolveQueue == [] && t.backgroundQueue == []
    ensures t.promotion.None? && t.sample.None?
    ensures t.active <= s.active && t.ledger.order == s.ledger.order
    decreases |es|
  {
    hide Books, Evolves;
    if es != [] {
      StepKeeps(s, es[0]);
      StoppedStep(s, es[0]);
      StoppedForever(Step(s, es[0]), es[1..], t);
    }
  }

  lemma StoppedStep(s: Scheduler, e: Event)
    requires Inv(s) && !s.accepting && Enabled(s, e)
    ensures var t := Step(s, e); !t.accepting && t.active <= s.active && t.ledger.order == s.ledger.order
  {
    hide Books, Evolves;
  }

  // -------------------------------------------------------------- quiet window

  predicate ResolveActivity(e: Event) {
    e.EnterScope? || (e.Submit? && e.priority.Resolve?)
  }

  ghost predicate NoResolveActivity(es: seq<Event>) {
    forall i :: 0 <= i < |es| ==> !ResolveActivity(es[i])
  }

  lemma ExitArmsPromotion(s: Scheduler)
    requires s.accepting && s.reservations == 1 && s.backgroundQueue != []
    ensures var t := Exited(s);
            t.promotion == Some(s.now + s.profile.quietMs) && t.reservations == 0 && t.backgroundStarts == s.backgroundStarts
  {
  }

  /** Background work that already waits when the last reservation is released
      cannot start before the release plus the quiet period, unless another
      Resolve call or scope intervenes. */
  lemma QuietWindow(s: Scheduler, es: seq<Event>, t: Scheduler)
    requires Inv(s) && s.accepting && s.reservations == 1 && s.backgroundQueue != []
    requires (ScopesKeep(s); Reaches(Exited(s), es, t)) && NoResolveActivity(es)
    ensures t.now < s.now + s.profile.quietMs ==> t.backgroundStarts == s.backgroundStarts
  {
    hide Books, Evolves, Reaches, NoResolveActivity;
    ScopesKeep(s);
    ExitArmsPromotion(s);
    hide Inv, Exited;
    PromotionHolds(Exited(s), es, t, s.now + s.profile.quietMs);
  }

  /** While a promotion is pending and Resolve stays quiet, no background work
      starts before it is due. */
  lemma {:induction false} PromotionHolds(s: Scheduler, es: seq<Event>, t: Scheduler, due: real)
    requires Inv(s) && s.promotion == Some(due) && s.reservations == 0 && Reaches(s, es, t) && NoResolveActivity(es)
    ensures t.now >= s.now
    ensures t.now < due ==> t.backgroundStarts == s.backgroundStarts
    decreases |es|
  {
    hide Books, Evolves;
    if es != [] {
      var u := Step(s, es[0]);
      StepKeeps(s, es[0]);
      assert !ResolveActivity(es[0]);
      QuietStep(s, es[0], due);
      assert NoResolveActivity(es[1..]) by {
        assert forall i :: 0 <= i < |es[1..]| ==> es[1..][i] == es[i + 1];
      }
      if u.promotion == Some(due) {
        PromotionHolds(u, es[1..], t, due);
      } else if !u.accepting {
        NowGrows(u, es[1..], t);
        NothingStarts(u, es[1..], t);
      } else {
        NowGrows(u, es[1..], t);
      }
    }
  }

  lemma QuietStep(s: Scheduler, e: Event, due: real)
    requires Inv(s) && s.promotion == Some(due) && s.reservations == 0 && Enabled(s, e) && !ResolveActivity(e)
    ensures var t := Step(s, e);
            && t.now >= s.now && t.reservations == 0
            && (t.promotion == Some(due) ==> t.backgroundStarts == s.backgroundStarts)
            && (t.promotion != Some(due) ==> (t.now >= due || (!t.accepting && t.backgroundStarts == s.backgroundStarts)))
  {
    hide Books, Evolves;
    match e
    case Settle(id) =>
      SettleStartsNoBackground(s, id);
      FinishBase(s, id);
      FillKeeps(s.(active := s.active - 1, ledger := Mark(s.ledger, id, Finished)));
    case PromotionDue => FillKeeps(s.(promotion := None));
    case SampleDue =>
      var late := s.now - s.sample.value;
      FillKeeps(s.(sample := None).(lag := if late > 0.0 then late else 0.0));
    case _ =>
  }

  lemma {:induction false} NowGrows(s: Scheduler, es: seq<Event>, t: Scheduler)
    requires Inv(s) && Reaches(s, es, t)
    ensures t.now >= s.now
    decreases |es|
  {
    hide Books, Evolves;
    if es != [] {
      StepKeeps(s, es[0]);
      StepNow(s, es[0]);
      NowGrows(Step(s, es[0]), es[1..], t);
    }
  }

  lemma StepNow(s: Scheduler, e: Event)
    requires Inv(s) && Enabled(s, e)
    ensures Step(s, e).now >= s.now
  {
    hide Books, Evolves;
    match e
    case Settle(id) =>
      FinishBase(s, id);
      FillKeeps(s.(active := s.active - 1, ledger := Mark(s.ledger, id, Finished)));
    case PromotionDue => FillKeeps(s.(promotion := None));
    case SampleDue =>
      var late := s.now - s.sample.value;
      FillKeeps(s.(sample := None).(lag := if late > 0.0 then late else 0.0));
    case _ =>
  }

  lemma NothingStarts(s: Scheduler, es: seq<Event>, t: Scheduler)
    requires Inv(s) && !s.accepting && Reaches(s, es, t)
    ensures t.backgroundStarts == s.backgroundStarts
  {
    StoppedForever(s, es, t);
    RunsKeep(s, es, t);
    SameOrderSameStarts(s.ledger, t.ledger);
  }

  lemma SameOrderSameStarts(a: Ledger<Priority>, b: Ledger<Priority>)
    requires Sound(a) && Sound(b) && Evolves(a, b) && a.order == b.order
    ensures StartedOf(a, Background) == StartedOf(b, Background)
  {
    forall id | id in StartedOf(b, Background) ensures id in StartedOf(a, Background)
    {
      assert id in b.order;
      var i :| 0 <= i < |a.order| && a.order[i] == id;
      assert a.subs[id].kind == b.subs[id].kind;
    }
    forall id | id in StartedOf(a, Background) ensures id in StartedOf(b, Background)
    {
      assert a.subs[id].kind == b.subs[id].kind && Advances(a.subs[id].fate, b.subs[id].fate);
    }
  }
}
