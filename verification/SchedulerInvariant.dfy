/** Every step of the scheduler keeps its invariant and settles nothing twice. */
module SchedulerInvariant {
  import opened Wrappers
  import opened Submissions
  import opened SchedulerModel

  lemma OpenInv(profile: Profile, now: real)
    requires ProfileValid(profile)
    ensures Inv(Open(profile, now))
  {
    var l := Open(profile, now).ledger;
    assert With(l, Running) == {} && StartedOf(l, Resolve) == {} && StartedOf(l, Background) == {};
  }

  // ------------------------------------------------------------- the ledger

  lemma BeginCounts(l: Ledger<Priority>, id: nat)
    requires id < |l.subs| && l.subs[id].fate.Waiting?
    ensures |With(Begin(l, id), Running)| == |With(l, Running)| + 1
    ensures |StartedOf(Begin(l, id), l.subs[id].kind)| == |StartedOf(l, l.subs[id].kind)| + 1
    ensures forall k :: k != l.subs[id].kind ==> StartedOf(Begin(l, id), k) == StartedOf(l, k)
  {
    MarkCounts(l, id, Running);
    BeginClasses(l, id);
    hide With, StartedOf, Begin;
  }

  lemma BeginClasses(l: Ledger<Priority>, id: nat)
    requires id < |l.subs| && l.subs[id].fate.Waiting?
    ensures With(Begin(l, id), Running) == With(Mark(l, id, Running), Running)
    ensures var kind := l.subs[id].kind;
            id !in StartedOf(l, kind) && StartedOf(Begin(l, id), kind) == StartedOf(l, kind) + {id}
    ensures forall k :: k != l.subs[id].kind ==> StartedOf(Begin(l, id), k) == StartedOf(l, k)
  {
  }

  lemma FinishCounts(l: Ledger<Priority>, id: nat)
    requires id < |l.subs| && l.subs[id].fate.Running?
    ensures |With(Mark(l, id, Finished), Running)| == |With(l, Running)| - 1 >= 0
    ensures forall k :: StartedOf(Mark(l, id, Finished), k) == StartedOf(l, k)
  {
    MarkCounts(l, id, Finished);
  }

  lemma EnterCounts(l: Ledger<Priority>, kind: Priority, fate: Fate)
    requires !fate.Started()
    ensures With(Enter(l, kind, fate), Running) == With(l, Running)
    ensures forall k :: StartedOf(Enter(l, kind, fate), k) == StartedOf(l, k)
  {
  }

  lemma DropCounts(l: Ledger<Priority>, ids: set<nat>, fate: Fate)
    requires !fate.Started()
    requires forall id :: id in ids ==> id < |l.subs| && l.subs[id].fate.Waiting?
    ensures With(MarkAll(l, ids, fate), Running) == With(l, Running)
    ensures forall k :: StartedOf(MarkAll(l, ids, fate), k) == StartedOf(l, k)
  {
  }

  lemma BooksRange(s: Scheduler)
    requires BooksOf(s)
    ensures InRange(s)
  {
  }

  // --------------------------------------------------------------- draining

  lemma TakeResolveBooks(s: Scheduler)
    requires BooksOf(s) && s.resolveQueue != []
    ensures var e := s.resolveQueue[0];
            && e.id < |s.ledger.subs| && e.id !in s.settled && !Fired(e.signal, s.aborted) && e.kind.Resolve?
            && Evolves(s.ledger, Begin(s.ledger, e.id))
            && Books(Begin(s.ledger, e.id), s.resolveQueue[1..], s.backgroundQueue, s.settled + {e.id}, s.aborted,
                     s.active + 1, s.resolveStarts + 1, s.backgroundStarts)
  {
    var id := s.resolveQueue[0].id;
    BeginTracks(s.ledger, s.resolveQueue, Resolve);
    BeginTracksOther(s.ledger, s.backgroundQueue, Background, id);
    BeginKeeps(s.ledger, id);
    BeginCounts(s.ledger, id);
    FlagKeepsLive(s.ledger, s.resolveQueue, Resolve, s.backgroundQueue, Background, s.settled, s.aborted);
    HeadReady(s.ledger, s.resolveQueue, Resolve, s.settled, s.aborted);
    hide Sound, Evolves, Tracks, Live;
  }

  lemma HeadReady(l: Ledger<Priority>, queue: seq<Entry<Priority>>, kind: Priority, settled: set<nat>, aborted: set<nat>)
    requires Tracks(l, queue, kind) && Live(queue, settled, aborted) && queue != []
    ensures queue[0].id < |l.subs| && queue[0].id !in settled && !Fired(queue[0].signal, aborted)
    ensures queue[0].kind == kind && l.subs[queue[0].id] == Submission(kind, Waiting)
  {
  }

  lemma TakeBackgroundBooks(s: Scheduler)
    requires BooksOf(s) && s.backgroundQueue != []
    ensures var e := s.backgroundQueue[0];
            && e.id < |s.ledger.subs| && e.id !in s.settled && !Fired(e.signal, s.aborted) && e.kind.Background?
            && Evolves(s.ledger, Begin(s.ledger, e.id))
            && Books(Begin(s.ledger, e.id), s.resolveQueue, s.backgroundQueue[1..], s.settled + {e.id}, s.aborted,
                     s.active + 1, s.resolveStarts, s.backgroundStarts + 1)
  {
    var id := s.backgroundQueue[0].id;
    BeginTracks(s.ledger, s.backgroundQueue, Background);
    BeginTracksOther(s.ledger, s.resolveQueue, Resolve, id);
    BeginKeeps(s.ledger, id);
    BeginCounts(s.ledger, id);
    FlagKeepsLive(s.ledger, s.backgroundQueue, Background, s.resolveQueue, Resolve, s.settled, s.aborted);
    HeadReady(s.ledger, s.backgroundQueue, Background, s.settled, s.aborted);
    hide Sound, Evolves, Tracks, Live;
  }

  /** Flagging the entry taken from one queue leaves both queues' entries live. */
  lemma FlagKeepsLive(l: Ledger<Priority>, queue: seq<Entry<Priority>>, kind: Priority,
                      other: seq<Entry<Priority>>, otherKind: Priority, settled: set<nat>, aborted: set<nat>)
    requires Tracks(l, queue, kind) && Tracks(l, other, otherKind) && kind != otherKind && queue != []
    requires Live(queue, settled, aborted) && Live(other, settled, aborted)
    ensures Live(queue[1..], settled + {queue[0].id}, aborted) && Live(other, settled + {queue[0].id}, aborted)
  {
    assert l.subs[queue[0].id].kind == kind;
    assert forall i :: 0 <= i < |other| ==> l.subs[other[i].id].kind == otherKind;
  }

  lemma TakeResolveKeeps(s: Scheduler)
    requires Base(s) && s.resolveQueue != [] && s.active < s.profile.concurrency
    ensures InRange(s)
    ensures Base(TakeResolve(s)) && Evolves(s.ledger, TakeResolve(s).ledger) && SameGates(s, TakeResolve(s))
    ensures var t := TakeResolve(s);
            && t.active == s.active + 1 && t.resolveQueue == s.resolveQueue[1..] && t.backgroundQueue == s.backgroundQueue
            && t.resolveStarts == s.resolveStarts + 1 && t.backgroundStarts == s.backgroundStarts
            && t.ledger.order == s.ledger.order + [s.resolveQueue[0].id]
  {
    hide Books, Evolves;
    BooksRange(s);
    TakeResolveBooks(s);
  }

  lemma TakeBackgroundKeeps(s: Scheduler)
    requires Base(s) && s.backgroundQueue != [] && s.active < s.profile.concurrency && s.resolveQueue == []
    ensures InRange(s)
    ensures Base(TakeBackground(s)) && Evolves(s.ledger, TakeBackground(s).ledger) && SameGates(s, TakeBackground(s))
    ensures var t := TakeBackground(s);
            && t.active == s.active + 1 && t.resolveQueue == [] && t.backgroundQueue == s.backgroundQueue[1..]
            && t.resolveStarts == s.resolveStarts && t.backgroundStarts == s.backgroundStarts + 1
            && t.ledger.order == s.ledger.order + [s.backgroundQueue[0].id]
  {
    hide Books, Evolves;
    BooksRange(s);
    TakeBackgroundBooks(s);
  }

  /** Filling free slots: Resolve entries first, then background entries if
      nothing holds them; it stops only at a full house or with nothing startable. */
  lemma {:induction false} FillKeeps(s: Scheduler)
    requires Base(s)
    ensures Base(Fill(s)) && Evolves(s.ledger, Fill(s).ledger) && SameGates(s, Fill(s))
    ensures var t := Fill(s);
            && t.active >= s.active && t.resolveStarts >= s.resolveStarts && t.backgroundStarts >= s.backgroundStarts
            && (t.active == s.profile.concurrency || (t.resolveQueue == [] && (Withheld(s) || t.backgroundQueue == [])))
            && (t.backgroundStarts > s.backgroundStarts ==> t.resolveQueue == [] && !Withheld(s))
            && |t.resolveQueue| + (t.resolveStarts - s.resolveStarts) == |s.resolveQueue|
            && |t.backgroundQueue| + (t.backgroundStarts - s.backgroundStarts) == |s.backgroundQueue|
            && t.active - s.active == (t.resolveStarts - s.resolveStarts) + (t.backgroundStarts - s.backgroundStarts)
    decreases |s.resolveQueue| + |s.backgroundQueue|
  {
    hide Books, Evolves;
    BooksRange(s);
    if s.active < s.profile.concurrency {
      if s.resolveQueue != [] {
        TakeResolveKeeps(s);
        BooksRange(TakeResolve(s));
        FillKeeps(TakeResolve(s));
        EvolvesTransitive(s.ledger, TakeResolve(s).ledger, Fill(s).ledger);
      } else if !Withheld(s) && s.backgroundQueue != [] {
        TakeBackgroundKeeps(s);
        BooksRange(TakeBackground(s));
        FillKeeps(TakeBackground(s));
        EvolvesTransitive(s.ledger, TakeBackground(s).ledger, Fill(s).ledger);
      } else {
        EvolvesSelf(s.ledger);
      }
    } else {
      EvolvesSelf(s.ledger);
    }
  }

  // -------------------------------------------------------------- submission

  lemma RecordKeeps(s: Scheduler, priority: Priority, fate: Fate)
    requires Base(s) && !fate.Started() && !fate.Waiting?
    ensures Base(Record(s, priority, fate)) && Evolves(s.ledger, Record(s, priority, fate).ledger)
  {
    EnterKeeps(s.ledger, priority, fate);
    EnterTracks(s.ledger, s.resolveQueue, Resolve, priority, fate);
    EnterTracks(s.ledger, s.backgroundQueue, Background, priority, fate);
    EnterCounts(s.ledger, priority, fate);
  }

  lemma StartFreshLedger(l: Ledger<Priority>, resolveQueue: seq<Entry<Priority>>, backgroundQueue: seq<Entry<Priority>>)
    requires Sound(l) && Tracks(l, resolveQueue, Resolve) && Tracks(l, backgroundQueue, Background) && resolveQueue == []
    ensures var m := Begin(Enter(l, Resolve, Waiting), |l.subs|);
            && Sound(m) && Evolves(l, m) && Tracks(m, [], Resolve) && Tracks(m, backgroundQueue, Background)
            && |With(m, Running)| == |With(l, Running)| + 1
            && |StartedOf(m, Resolve)| == |StartedOf(l, Resolve)| + 1 && StartedOf(m, Background) == StartedOf(l, Background)
  {
    var id := |l.subs|;
    var w := Enter(l, Resolve, Waiting);
    var only := [Entry(id, Resolve, None)];
    assert resolveQueue + only == only && only[1..] == [];
    EnterQueues(l, resolveQueue, Resolve, None);
    BeginTracks(w, only, Resolve);
    EnterKeeps(l, Resolve, Waiting);
    EnterTracks(l, backgroundQueue, Background, Resolve, Waiting);
    EnterCounts(l, Resolve, Waiting);
    hide Sound, Evolves, Tracks;
    BeginTracksOther(w, backgroundQueue, Background, id);
    BeginKeeps(w, id);
    BeginCounts(w, id);
    EvolvesTransitive(l, w, Begin(w, id));
  }

  lemma StartFreshKeeps(s: Scheduler, signal: Option<nat>)
    requires Base(s) && s.accepting && s.active < s.profile.concurrency && s.resolveQueue == []
    ensures Base(RunResolve(s, signal)) && Evolves(s.ledger, RunResolve(s, signal).ledger)
    ensures RunResolve(s, signal).ledger.order == s.ledger.order + [|s.ledger.subs|]
  {
    hide Sound, Evolves, Tracks;
    StartFreshLedger(s.ledger, s.resolveQueue, s.backgroundQueue);
  }

  lemma QueueResolveKeeps(s: Scheduler, signal: Option<nat>)
    requires Base(s) && s.accepting && !Fired(signal, s.aborted)
    requires s.active >= s.profile.concurrency && |s.resolveQueue| < s.profile.resolveQueueDepth
    ensures Base(RunResolve(s, signal)) && Evolves(s.ledger, RunResolve(s, signal).ledger)
  {
    EnterKeeps(s.ledger, Resolve, Waiting);
    EnterQueues(s.ledger, s.resolveQueue, Resolve, signal);
    EnterTracks(s.ledger, s.backgroundQueue, Background, Resolve, Waiting);
    EnterCounts(s.ledger, Resolve, Waiting);
    hide Sound, Tracks, Evolves;
  }

  lemma QueueBackgroundBooks(s: Scheduler, signal: Option<nat>)
    requires BooksOf(s) && !Fired(signal, s.aborted)
    ensures var l := Enter(s.ledger, Background, Waiting);
            && Evolves(s.ledger, l)
            && Books(l, s.resolveQueue, s.backgroundQueue + [Entry(|s.ledger.subs|, Background, signal)], s.settled, s.aborted,
                     s.active, s.resolveStarts, s.backgroundStarts)
  {
    EnterKeeps(s.ledger, Background, Waiting);
    EnterQueues(s.ledger, s.backgroundQueue, Background, signal);
    EnterTracks(s.ledger, s.resolveQueue, Resolve, Background, Waiting);
    EnterCounts(s.ledger, Background, Waiting);
    hide Sound, Tracks, Evolves;
  }

  lemma QueueBackgroundKeeps(s: Scheduler, signal: Option<nat>)
    requires Base(s) && s.accepting && !Fired(signal, s.aborted)
    requires |s.backgroundQueue| < s.profile.backgroundQueueDepth
    ensures Base(RunBackground(s, signal)) && Evolves(s.ledger, RunBackground(s, signal).ledger)
  {
    hide Books, Evolves;
    QueueBackgroundBooks(s, signal);
  }

  lemma RunKeeps(s: Scheduler, priority: Priority, signal: Option<nat>)
    requires Inv(s)
    ensures Inv(Run(s, priority, signal)) && Evolves(s.ledger, Run(s, priority, signal).ledger)
  {
    hide Books;
    if !s.accepting {
      RecordKeeps(s, priority, Closed);
    } else if Fired(signal, s.aborted) {
      RecordKeeps(s, priority, CancelledAtEntry);
    } else if priority.Resolve? {
      var c := CancelPromotion(s);
      if c.active < c.profile.concurrency {
        StartFreshKeeps(c, signal);
      } else if |c.resolveQueue| >= c.profile.resolveQueueDepth {
        RecordKeeps(c, Resolve, Refused);
      } else {
        QueueResolveKeeps(c, signal);
      }
    } else if |s.backgroundQueue| >= s.profile.backgroundQueueDepth {
      RecordKeeps(s, Background, Refused);
    } else {
      QueueBackgroundKeeps(s, signal);
    }
  }

  // --------------------------------------------------------- the other steps

  lemma FinishBase(s: Scheduler, id: nat)
    requires Base(s) && id < |s.ledger.subs| && s.ledger.subs[id].fate.Running?
    ensures s.active > 0
    ensures Base(s.(active := s.active - 1, ledger := Mark(s.ledger, id, Finished)))
    ensures Evolves(s.ledger, Mark(s.ledger, id, Finished))
  {
    FinishCounts(s.ledger, id);
    FinishKeeps(s.ledger, id);
    FinishTracks(s.ledger, s.resolveQueue, Resolve, id);
    FinishTracks(s.ledger, s.backgroundQueue, Background, id);
    hide Sound, Tracks, Evolves;
  }

  lemma SettledKeeps(s: Scheduler, id: nat)
    requires Inv(s) && id < |s.ledger.subs| && s.ledger.subs[id].fate.Running?
    ensures InRange(s) && s.active > 0
    ensures Inv(Settled(s, id)) && Evolves(s.ledger, Settled(s, id).ledger)
  {
    hide Books;
    BooksRange(s);
    FinishBase(s, id);
    var t := s.(active := s.active - 1, ledger := Mark(s.ledger, id, Finished));
    BooksRange(t);
    if t.resolveQueue != [] {
      FillKeeps(t);
      EvolvesTransitive(s.ledger, t.ledger, Settled(s, id).ledger);
    }
  }

  lemma AbortedLedger(s: Scheduler, signal: nat)
    requires BooksOf(s)
    ensures var t := Aborted(s, signal);
            && Sound(t.ledger) && Evolves(s.ledger, t.ledger)
            && Tracks(t.ledger, t.resolveQueue, Resolve) && Tracks(t.ledger, t.backgroundQueue, Background)
            && With(t.ledger, Running) == With(s.ledger, Running)
            && (forall k :: StartedOf(t.ledger, k) == StartedOf(s.ledger, k))
            && |t.ledger.subs| == |s.ledger.subs|
  {
    var rq, bq := s.resolveQueue, s.backgroundQueue;
    var r, b := SignalledIds(rq, signal), SignalledIds(bq, signal);
    var m := MarkAll(s.ledger, r, CancelledWaiting);
    SignalledExactly(rq, signal);
    SignalledExactly(bq, signal);
    DropKeeps(s.ledger, r, CancelledWaiting);
    DropCounts(s.ledger, r, CancelledWaiting);
    CancelTracks(s.ledger, rq, Resolve, signal, r);
    OtherKindTracks(s.ledger, bq, Background, r, CancelledWaiting);
    DropKeeps(m, b, CancelledWaiting);
    DropCounts(m, b, CancelledWaiting);
    CancelTracks(m, bq, Background, signal, b);
    OtherKindTracks(m, Unsignalled(rq, signal), Resolve, b, CancelledWaiting);
    EvolvesTransitive(s.ledger, m, Aborted(s, signal).ledger);
  }

  lemma AbortedBooks(s: Scheduler, signal: nat)
    requires BooksOf(s)
    ensures BooksOf(Aborted(s, signal)) && Evolves(s.ledger, Aborted(s, signal).ledger)
  {
    AbortedLedger(s, signal);
    CancelLive(s, signal);
    hide Sound, Tracks, Live, Evolves;
  }

  lemma AbortedKeeps(s: Scheduler, signal: nat)
    requires Inv(s)
    ensures Inv(Aborted(s, signal)) && Evolves(s.ledger, Aborted(s, signal).ledger)
  {
    hide Books, Evolves;
    AbortedBooks(s, signal);
    UnsignalledMembers(s.resolveQueue, signal);
    UnsignalledMembers(s.backgroundQueue, signal);
  }

  lemma OtherKindTracks(l: Ledger<Priority>, queue: seq<Entry<Priority>>, kind: Priority, ids: set<nat>, fate: Fate)
    requires Tracks(l, queue, kind) && !fate.Waiting?
    requires forall id :: id in ids ==> id < |l.subs| && l.subs[id].kind != kind
    ensures Tracks(MarkAll(l, ids, fate), queue, kind)
  {
  }

  lemma CancelLive(s: Scheduler, signal: nat)
    requires BooksOf(s)
    ensures Live(Aborted(s, signal).resolveQueue, Aborted(s, signal).settled, s.aborted + {signal})
    ensures Live(Aborted(s, signal).backgroundQueue, Aborted(s, signal).settled, s.aborted + {signal})
  {
    CancelLiveQueue(s.ledger, s.resolveQueue, Resolve, s.backgroundQueue, Background, s.settled, s.aborted, signal);
    CancelLiveQueue(s.ledger, s.backgroundQueue, Background, s.resolveQueue, Resolve, s.settled, s.aborted, signal);
    assert s.settled + SignalledIds(s.resolveQueue, signal) + SignalledIds(s.backgroundQueue, signal)
        == s.settled + SignalledIds(s.backgroundQueue, signal) + SignalledIds(s.resolveQueue, signal);
  }

  lemma CancelLiveQueue(l: Ledger<Priority>, queue: seq<Entry<Priority>>, kind: Priority,
                        other: seq<Entry<Priority>>, otherKind: Priority,
                        settled: set<nat>, aborted: set<nat>, signal: nat)
    requires Tracks(l, queue, kind) && Tracks(l, other, otherKind) && kind != otherKind && Live(queue, settled, aborted)
    ensures Live(Unsignalled(queue, signal), settled + SignalledIds(queue, signal) + SignalledIds(other, signal),
                 aborted + {signal})
  {
    var q := Unsignalled(queue, signal);
    UnsignalledMembers(queue, signal);
    SignalledUntouched(queue, signal);
    forall i | 0 <= i < |q|
      ensures q[i].id !in settled + SignalledIds(queue, signal) + SignalledIds(other, signal)
      ensures !Fired(q[i].signal, aborted + {signal})
    {
      assert q[i] in q && q[i] in queue;
      assert l.subs[q[i].id].kind == kind;
      assert forall e :: e in other ==> l.subs[e.id].kind == otherKind;
    }
  }

  lemma StoppedKeeps(s: Scheduler)
    requires Inv(s)
    ensures Inv(Stopped(s)) && Evolves(s.ledger, Stopped(s).ledger)
  {
    if s.accepting {
      var ids := Ids(s.resolveQueue) + Ids(s.backgroundQueue);
      DropKeeps(s.ledger, ids, ClosedWaiting);
      DropCounts(s.ledger, ids, ClosedWaiting);
      CloseTracks(s.ledger, s.resolveQueue, Resolve, ids);
      CloseTracks(s.ledger, s.backgroundQueue, Background, ids);
    } else {
      EvolvesSelf(s.ledger);
    }
  }

  lemma TimersKeep(s: Scheduler)
    requires Inv(s)
    ensures InRange(s)
    ensures s.promotion.Some? ==> Inv(PromotionFired(s)) && Evolves(s.ledger, PromotionFired(s).ledger)
    ensures s.sample.Some? ==> Inv(SampleFired(s)) && Evolves(s.ledger, SampleFired(s).ledger)
  {
    hide Books;
    BooksRange(s);
    if s.promotion.Some? {
      FillKeeps(s.(promotion := None));
    }
    if s.sample.Some? && s.accepting {
      var late := s.now - s.sample.value;
      FillKeeps(s.(sample := None).(lag := if late > 0.0 then late else 0.0));
    }
  }

  lemma ScopesKeep(s: Scheduler)
    requires Inv(s)
    ensures Inv(Entered(s)) && Entered(s).ledger == s.ledger
    ensures s.reservations > 0 ==> Inv(Exited(s)) && Exited(s).ledger == s.ledger
    ensures Inv(Monitored(s)) && Monitored(s).ledger == s.ledger
  {
    hide Books;
  }

  // -------------------------------------------------------------------- runs

  predicate Enabled(s: Scheduler, e: Event) {
    match e
    case Settle(id) => id < |s.ledger.subs| && s.ledger.subs[id].fate.Running?
    case PromotionDue => s.promotion.Some? && s.now >= s.promotion.value
    case SampleDue => s.sample.Some? && s.now >= s.sample.value
    case ExitScope => s.reservations > 0
    case Pass(to) => to >= s.now
    case _ => true
  }

  ghost function Step(s: Scheduler, e: Event): Scheduler
    requires Inv(s) && Enabled(s, e)
  {
    match e
    case Submit(priority, signal) => Run(s, priority, signal)
    case Settle(id) => SettledKeeps(s, id); Settled(s, id)
    case Abort(fired) => Aborted(s, fired)
    case PromotionDue => TimersKeep(s); PromotionFired(s)
    case SampleDue => TimersKeep(s); SampleFired(s)
    case EnterScope => Entered(s)
    case ExitScope => Exited(s)
    case StartMonitoring => Monitored(s)
    case Stop => Stopped(s)
    case Pass(to) => s.(now := to)
  }

  lemma StepKeeps(s: Scheduler, e: Event)
    requires Inv(s) && Enabled(s, e)
    ensures Inv(Step(s, e)) && Evolves(s.ledger, Step(s, e).ledger) && Step(s, e).profile == s.profile
  {
    hide Books, Evolves;
    match e
    case Submit(priority, signal) => RunKeeps(s, priority, signal);
    case Settle(id) => SettledKeeps(s, id); FinishBase(s, id);
      FillKeeps(s.(active := s.active - 1, ledger := Mark(s.ledger, id, Finished)));
    case Abort(fired) => AbortedKeeps(s, fired);
    case PromotionDue => TimersKeep(s); FillKeeps(s.(promotion := None));
    case SampleDue => TimersKeep(s); DrainProfile(s);
    case EnterScope => ScopesKeep(s); EvolvesSelf(s.ledger);
    case ExitScope => ScopesKeep(s); EvolvesSelf(s.ledger);
    case StartMonitoring => ScopesKeep(s); EvolvesSelf(s.ledger);
    case Stop => StoppedKeeps(s);
    case Pass(to) => EvolvesSelf(s.ledger);
  }

  lemma DrainProfile(s: Scheduler)
    requires Inv(s) && s.sample.Some?
    ensures InRange(s)
    ensures SampleFired(s).profile == s.profile
  {
    hide Books;
    BooksRange(s);
    var late := s.now - s.sample.value;
    FillKeeps(s.(sample := None).(lag := if late > 0.0 then late else 0.0));
  }

  /** `es` is a run from `s` ending in `t`. */
  ghost predicate Reaches(s: Scheduler, es: seq<Event>, t: Scheduler)
    requires Inv(s)
    decreases |es|
  {
    if es == [] then s == t
    else
      && Enabled(s, es[0])
      && (StepKeeps(s, es[0]); Reaches(Step(s, es[0]), es[1..], t))
  }

  /** `es` is a run of a newly constructed scheduler ending in `t`. */
  ghost predicate RunFromOpen(profile: Profile, now: real, es: seq<Event>, t: Scheduler) {
    ProfileValid(profile) && (OpenInv(profile, now); Reaches(Open(profile, now), es, t))
  }

  /** Over every run the invariant holds at the end, fates only advance, and the
      start order only grows. */
  lemma {:induction false} RunsKeep(s: Scheduler, es: seq<Event>, t: Scheduler)
    requires Inv(s) && Reaches(s, es, t)
    ensures Inv(t) && Evolves(s.ledger, t.ledger) && t.profile == s.profile
    decreases |es|
  {
    if es == [] {
      EvolvesSelf(s.ledger);
    } else {
      StepKeeps(s, es[0]);
      RunsKeep(Step(s, es[0]), es[1..], t);
      EvolvesTransitive(s.ledger, Step(s, es[0]).ledger, t.ledger);
    }
  }
}
