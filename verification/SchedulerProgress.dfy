/**
 Background work is not only never stranded, it is started after a bounded
 number of wake-ups once Resolve work stays away.
 */
module SchedulerProgress {
  import opened Wrappers
  import opened Submissions
  import opened SchedulerModel
  import opened SchedulerInvariant
  import opened SchedulerSafety

  /** Nothing new claims the session: no Resolve submission, no new scope, no
      stop, and samples arrive in time. */
  predicate Calm(s: Scheduler, e: Event) {
    match e
    case Submit(priority, signal) => priority.Background?
    case EnterScope => false
    case Stop => false
    case SampleDue => s.sample.Some? && s.now - s.sample.value <= s.profile.warningMs
    case _ => true
  }

  /** The events that a waiting background entry is waiting for. */
  predicate WakeUp(s: Scheduler, e: Event) {
    match e
    case Settle(id) => true
    case PromotionDue => true
    case ExitScope => true
    case SampleDue => Suppressed(s)
    case _ => false
  }

  /** How many wake-ups may still pass before background work starts. */
  function Distance(s: Scheduler): nat {
    3 * |s.resolveQueue| + 2 * s.active + 2 * s.reservations
    + (if s.promotion.Some? then 1 else 0) + (if Suppressed(s) then 1 else 0)
  }

  /** Whether the event puts a further entry into the background queue. */
  ghost function Arrival(s: Scheduler, e: Event): nat
    requires Inv(s) && Enabled(s, e)
  {
    if e.Submit? && |Step(s, e).backgroundQueue| > |s.backgroundQueue| then 1 else 0
  }

  lemma CalmSettle(s: Scheduler, id: nat)
    requires Inv(s) && s.accepting && Enabled(s, Settle(id))
    ensures InRange(s) && s.active > 0
    ensures var t := Settled(s, id); t.accepting && Distance(t) + 1 <= Distance(s)
  {
    hide Books, Evolves;
    SettleStartsNoBackground(s, id);
    FinishBase(s, id);
    FillKeeps(s.(active := s.active - 1, ledger := Mark(s.ledger, id, Finished)));
  }

  lemma CalmPromotion(s: Scheduler)
    requires Inv(s) && s.accepting && s.promotion.Some?
    ensures InRange(s)
    ensures var t := PromotionFired(s);
            t.backgroundStarts == s.backgroundStarts ==> t.accepting && Distance(t) + 1 <= Distance(s)
  {
    hide Books, Evolves, Fill;
    BooksRange(s);
    FillKeeps(s.(promotion := None));
  }

  lemma CalmSample(s: Scheduler)
    requires Inv(s) && s.accepting && s.sample.Some? && s.now - s.sample.value <= s.profile.warningMs
    ensures InRange(s)
    ensures var t := SampleFired(s);
            t.backgroundStarts == s.backgroundStarts ==>
              t.accepting && Distance(t) + (if Suppressed(s) then 1 else 0) <= Distance(s)
  {
    hide Books, Evolves, Fill;
    BooksRange(s);
    var late := s.now - s.sample.value;
    FillKeeps(s.(sample := None).(lag := if late > 0.0 then late else 0.0));
  }

  lemma CalmSubmit(s: Scheduler, signal: Option<nat>)
    requires Inv(s) && s.accepting
    ensures var t := Run(s, Background, signal);
            t.accepting && Distance(t) <= Distance(s) + (if |t.backgroundQueue| > |s.backgroundQueue| then 1 else 0)
  {
    hide Books, WakeUpExists, ResolveConserving, SamplerAlive;
  }

  lemma CalmAbort(s: Scheduler, fired: nat)
    requires s.accepting
    ensures var t := Aborted(s, fired); t.accepting && Distance(t) <= Distance(s)
  {
    UnsignalledMembers(s.resolveQueue, fired);
  }

  lemma CalmExit(s: Scheduler)
    requires s.accepting && s.reservations > 0
    ensures var t := Exited(s); t.accepting && Distance(t) + 1 <= Distance(s)
  {
  }

  lemma CalmTime(s: Scheduler, to: real)
    requires s.accepting
    ensures Distance(s.(now := to)) == Distance(s)
    ensures Monitored(s).accepting && Distance(Monitored(s)) == Distance(s)
  {
  }

  /** In a calm step that starts no background work, a wake-up brings the start
      closer, and only a background submission that is queued can move it away, by
      one. */
  lemma CalmStep(s: Scheduler, e: Event)
    requires Inv(s) && s.accepting && Enabled(s, e) && Calm(s, e)
    requires Step(s, e).backgroundStarts == s.backgroundStarts
    ensures Step(s, e).accepting
    ensures Distance(Step(s, e)) + (if WakeUp(s, e) then 1 else 0) <= Distance(s) + Arrival(s, e)
  {
    hide Inv, Distance, Suppressed;
    hide Run, Settled, Aborted, PromotionFired, SampleFired, Exited, Monitored;
    match e
    case Submit(priority, signal) => CalmSubmit(s, signal);
    case Settle(id) => CalmSettle(s, id);
    case Abort(fired) => CalmAbort(s, fired);
    case PromotionDue => CalmPromotion(s);
    case SampleDue => CalmSample(s);
    case ExitScope => CalmExit(s);
    case StartMonitoring => CalmTime(s, s.now);
    case Pass(to) => CalmTime(s, to);
  }

  /** The run is calm from `s` on. */
  ghost predicate CalmRun(s: Scheduler, es: seq<Event>)
    requires Inv(s)
    decreases |es|
  {
    es != [] ==>
      Enabled(s, es[0]) && Calm(s, es[0]) && (StepKeeps(s, es[0]); CalmRun(Step(s, es[0]), es[1..]))
  }

  ghost function WakeUps(s: Scheduler, es: seq<Event>): nat
    requires Inv(s) && CalmRun(s, es)
    decreases |es|
  {
    if es == [] then 0
    else (if WakeUp(s, es[0]) then 1 else 0) + (StepKeeps(s, es[0]); WakeUps(Step(s, es[0]), es[1..]))
  }

  ghost function Arrivals(s: Scheduler, es: seq<Event>): nat
    requires Inv(s) && CalmRun(s, es)
    decreases |es|
  {
    if es == [] then 0
    else Arrival(s, es[0]) + (StepKeeps(s, es[0]); Arrivals(Step(s, es[0]), es[1..]))
  }

  /** Bounded waiting: a calm run that starts no background work holds at most
      as many wake-ups as the starting distance plus the background submissions
      queued on the way. */
  lemma {:induction false} BoundedWait(s: Scheduler, es: seq<Event>, t: Scheduler)
    requires Inv(s) && s.accepting && Reaches(s, es, t) && CalmRun(s, es)
    requires t.backgroundStarts == s.backgroundStarts
    ensures t.accepting && WakeUps(s, es) + Distance(t) <= Distance(s) + Arrivals(s, es)
    decreases |es|
  {
    hide Books, Evolves;
    if es != [] {
      var u := Step(s, es[0]);
      StepKeeps(s, es[0]);
      StartsNeverDrop(s, es[0]);
      RunStartsNeverDrop(u, es[1..], t);
      CalmStep(s, es[0]);
      BoundedWait(u, es[1..], t);
    }
  }

  lemma StartsNeverDrop(s: Scheduler, e: Event)
    requires Inv(s) && Enabled(s, e)
    ensures Step(s, e).backgroundStarts >= s.backgroundStarts
  {
    hide Books, Evolves;
    match e
    case Settle(id) => SettleStartsNoBackground(s, id);
    case PromotionDue => FillKeeps(s.(promotion := None));
    case SampleDue =>
      var late := s.now - s.sample.value;
      FillKeeps(s.(sample := None).(lag := if late > 0.0 then late else 0.0));
    case _ =>
  }

  lemma {:induction false} RunStartsNeverDrop(s: Scheduler, es: seq<Event>, t: Scheduler)
    requires Inv(s) && Reaches(s, es, t)
    ensures t.backgroundStarts >= s.backgroundStarts
    decreases |es|
  {
    hide Books, Evolves;
    if es != [] {
      StepKeeps(s, es[0]);
      StartsNeverDrop(s, es[0]);
      RunStartsNeverDrop(Step(s, es[0]), es[1..], t);
    }
  }

  /** The sampler is so late that its next sample will hold background work back. */
  predicate Overdue(s: Scheduler) {
    s.sample.Some? && s.now - s.sample.value > s.profile.warningMs
  }

  /** After letting the clock reach some instant, one of the events that waiting
      background work waits for is enabled. */
  ghost predicate Available(s: Scheduler) {
    exists to: real, e: Event :: to >= s.now && var u := s.(now := to); Enabled(u, e) && Calm(u, e) && WakeUp(u, e)
  }

  /** Nothing but the sampler is left to wake background work, and it is overdue. */
  predicate Stalled(s: Scheduler) {
    s.active == 0 && s.reservations == 0 && s.promotion.None? && Overdue(s)
  }

  lemma WakeUpUnlessStalled(s: Scheduler)
    requires Inv(s) && s.accepting && s.backgroundQueue != [] && !Stalled(s)
    ensures Available(s)
  {
    if s.active > 0 {
      RunningExists(s);
      hide Books;
      var id :| 0 <= id < |s.ledger.subs| && s.ledger.subs[id].fate.Running?;
      WakeUpWitness(s, s.now, Settle(id));
    } else if s.reservations > 0 {
      WakeUpWitness(s, s.now, ExitScope);
    } else if s.promotion.Some? {
      WakeUpWitness(s, if s.promotion.value > s.now then s.promotion.value else s.now, PromotionDue);
    } else {
      WakeUpWitness(s, if s.sample.value > s.now then s.sample.value else s.now, SampleDue);
    }
  }

  /** An overdue sample costs one more period: it is due, it starts nothing, and
      it leaves the same work waiting under a sampler that is on time again. */
  lemma LateSampleRearms(s: Scheduler)
    requires Inv(s) && s.accepting && s.backgroundQueue != [] && Overdue(s)
    ensures Enabled(s, SampleDue)
    ensures var t := Step(s, SampleDue);
            && Inv(t) && t.accepting && t.backgroundQueue != [] && !Overdue(t)
            && t.backgroundStarts == s.backgroundStarts
            && (Suppressed(s) && s.resolveQueue == [] ==> Distance(t) == Distance(s))
  {
    hide Books, Evolves;
    BooksRange(s);
    StepKeeps(s, SampleDue);
    FillKeeps(s.(sample := None).(lag := s.now - s.sample.value));
  }

  /** While background work waits a wake-up is to be had, at the latest once the one
      overdue sample has been taken. */
  lemma WakeUpAvailable(s: Scheduler)
    requires Inv(s) && s.accepting && s.backgroundQueue != []
    ensures if Stalled(s) then Enabled(s, SampleDue) && Available(Step(s, SampleDue)) else Available(s)
  {
    if Stalled(s) {
      LateSampleRearms(s);
      hide Step, Books, Available;
      WakeUpUnlessStalled(Step(s, SampleDue));
    } else {
      WakeUpUnlessStalled(s);
    }
  }

  lemma WakeUpWitness(s: Scheduler, to: real, e: Event)
    requires to >= s.now && var u := s.(now := to); Enabled(u, e) && Calm(u, e) && WakeUp(u, e)
    ensures Available(s)
  {
  }

  // ---------------------------------------------------------------- it does start

  /** What is under way goes on: operations settle, timers fire, scopes end and time
      passes.  Nothing is submitted, aborted, entered or stopped. */
  predicate GoesOn(e: Event) {
    e.Settle? || e.PromotionDue? || e.SampleDue? || e.ExitScope? || e.Pass?
  }

  /** A wake-up that starts no background work loses none of it. */
  lemma WakeUpKeepsQueue(s: Scheduler, e: Event)
    requires Inv(s) && s.accepting && Enabled(s, e) && WakeUp(s, e)
    requires Step(s, e).backgroundStarts == s.backgroundStarts
    ensures |Step(s, e).backgroundQueue| == |s.backgroundQueue|
  {
    hide Books, Evolves, Fill;
    match e
    case Settle(id) =>
      FinishBase(s, id);
      FillKeeps(s.(active := s.active - 1, ledger := Mark(s.ledger, id, Finished)));
    case PromotionDue =>
      FillKeeps(s.(promotion := None));
    case SampleDue =>
      var late := s.now - s.sample.value;
      FillKeeps(s.(sample := None).(lag := if late > 0.0 then late else 0.0));
    case _ =>
  }

  /** How many events are enough, two for each wake-up and one for a late sample. */
  function Patience(s: Scheduler): nat {
    3 * Distance(s) + (if Stalled(s) then 1 else 0)
  }

  /** A run of what is under way that starts background work. */
  ghost predicate StartsWithin(s: Scheduler, es: seq<Event>, t: Scheduler, limit: nat)
    requires Inv(s)
  {
    && (forall i :: 0 <= i < |es| ==> GoesOn(es[i]))
    && Reaches(s, es, t)
    && t.backgroundStarts > s.backgroundStarts
    && |es| <= limit
  }

  lemma StalledDistance(s: Scheduler)
    requires Inv(s) && s.accepting && s.backgroundQueue != []
    ensures Distance(s) > 0
    ensures Stalled(s) ==> Suppressed(s) && s.resolveQueue == []
  {
    hide Books;
  }

  lemma StartsLater(s: Scheduler, e: Event, es: seq<Event>, t: Scheduler, limit: nat)
    requires Inv(s) && Enabled(s, e) && GoesOn(e)
    requires (StepKeeps(s, e); StartsWithin(Step(s, e), es, t, limit))
    requires Step(s, e).backgroundStarts == s.backgroundStarts
    ensures StartsWithin(s, [e] + es, t, limit + 1)
  {
    hide Inv, Step, Enabled;
    assert ([e] + es)[1..] == es;
  }

  lemma StartsSooner(s: Scheduler, es: seq<Event>, t: Scheduler, limit: nat, longer: nat)
    requires Inv(s) && StartsWithin(s, es, t, limit) && limit <= longer
    ensures StartsWithin(s, es, t, longer)
  {
  }

  lemma Passes(s: Scheduler, to: real)
    requires Inv(s) && to >= s.now
    ensures Enabled(s, Pass(to)) && Step(s, Pass(to)) == s.(now := to)
  {
  }

  lemma StartsNow(u: Scheduler, e: Event)
    requires Inv(u) && Enabled(u, e) && GoesOn(e) && Step(u, e).backgroundStarts > u.backgroundStarts
    ensures StartsWithin(u, [e], Step(u, e), 1)
  {
    hide Inv, Step, Enabled;
    StepKeeps(u, e);
    assert [e][1..] == [] && Reaches(Step(u, e), [], Step(u, e));
  }

  /** While nothing stalls, some wake-up can be waited for; it starts background work
      or brings the start closer. */
  lemma Awakening(s: Scheduler) returns (to: real, e: Event)
    requires Inv(s) && s.accepting && s.backgroundQueue != [] && !Stalled(s)
    ensures to >= s.now && Inv(s.(now := to)) && Enabled(s.(now := to), e) && GoesOn(e)
    ensures var u := s.(now := to); var v := Step(u, e);
            && Inv(v)
            && (v.backgroundStarts > s.backgroundStarts
                || (v.backgroundStarts == s.backgroundStarts && v.accepting && v.backgroundQueue != []
                    && Distance(v) + 1 <= Distance(s)))
  {
    hide Inv, Step, Enabled, Distance, Calm, Stalled, Evolves;
    WakeUpUnlessStalled(s);
    var instant: real, event: Event :| instant >= s.now && var u := s.(now := instant);
      Enabled(u, event) && Calm(u, event) && WakeUp(u, event);
    to, e := instant, event;
    var u := s.(now := to);
    Passes(s, to);
    StepKeeps(s, Pass(to));
    StepKeeps(u, e);
    StartsNeverDrop(u, e);
    CalmTime(s, to);
    if Step(u, e).backgroundStarts == u.backgroundStarts {
      CalmStep(u, e);
      WakeUpKeepsQueue(u, e);
    }
  }

  /** Waiting background work is never past helping: from every state with some of it
      waiting, letting what is under way go on, for no more events than the distance
      allows, starts background work. */
  lemma {:induction false} BackgroundCanStart(s: Scheduler)
    requires Inv(s) && s.accepting && s.backgroundQueue != []
    ensures exists es, t :: StartsWithin(s, es, t, Patience(s))
    decreases Patience(s)
  {
    hide Inv, Step, Distance, StartsWithin;
    StalledDistance(s);
    if Stalled(s) {
      LateSampleRearms(s);
      var u := Step(s, SampleDue);
      BackgroundCanStart(u);
      var es, t :| StartsWithin(u, es, t, Patience(u));
      StartsLater(s, SampleDue, es, t, Patience(u));
      assert StartsWithin(s, [SampleDue] + es, t, Patience(s));
    } else {
      var to, e := Awakening(s);
      var u := s.(now := to);
      Passes(s, to);
      var v := Step(u, e);
      if v.backgroundStarts > s.backgroundStarts {
        StartsNow(u, e);
        StartsLater(s, Pass(to), [e], v, 1);
        StartsSooner(s, [Pass(to)] + [e], v, 2, Patience(s));
      } else {
        BackgroundCanStart(v);
        var es, t :| StartsWithin(v, es, t, Patience(v));
        StartsLater(u, e, es, t, Patience(v));
        StartsLater(s, Pass(to), [e] + es, t, Patience(v) + 1);
        StartsSooner(s, [Pass(to)] + ([e] + es), t, Patience(v) + 2, Patience(s));
      }
    }
  }
}
