/** When background work may start: what arms the promotion timer, for when, and
    what holds it back. */
module SchedulerTiming {
  import opened Wrappers
  import opened Submissions
  import opened SchedulerModel
  import opened SchedulerInvariant
  import opened SchedulerSafety

  // ------------------------------------------------------ the pause before a start

  /** The pause after an operation of this priority, or after a background
      submission. */
  function Pause(s: Scheduler, priority: Priority): real {
    if priority.Resolve? then s.profile.quietMs else s.profile.yieldMs
  }

  /** When the pause is over, unless one is already running. */
  function PauseEnds(s: Scheduler, priority: Priority): real {
    if s.promotion.Some? then s.promotion.value else s.now + Pause(s, priority)
  }

  /** Some waiting background entry has no signal, so that nothing can cancel it. */
  predicate Anchored(s: Scheduler) {
    exists i :: 0 <= i < |s.backgroundQueue| && s.backgroundQueue[i].signal.None?
  }

  /** Whether a pause until `due` survives the scopes that are held: the last one to
      end puts the quiet period in its place, and with nothing waiting then, the next
      background submission puts the yield there. */
  predicate Survives(s: Scheduler, due: real) {
    due <= s.now + s.profile.quietMs && (due <= s.now + s.profile.yieldMs || Anchored(s))
  }

  /** Whatever is armed, or could be, is due no sooner than `due`. */
  predicate Holds(s: Scheduler, due: real) {
    && (s.promotion.Some? ==> s.promotion.value >= due)
    && (s.promotion.None? ==> s.backgroundQueue == [])
    && (s.reservations > 0 || s.promotion.None? ==> Survives(s, due))
  }

  lemma {:induction false} FillWithheld(s: Scheduler)
    requires InRange(s) && Withheld(s)
    ensures Fill(s).backgroundQueue == s.backgroundQueue
    decreases |s.resolveQueue|
  {
    if s.active < s.profile.concurrency && s.resolveQueue != [] {
      FillWithheld(TakeResolve(s));
    }
  }

  lemma KeptEntry(queue: seq<Entry<Priority>>, i: nat, fired: nat)
    requires i < |queue| && queue[i].signal.None?
    ensures exists k :: 0 <= k < |Unsignalled(queue, fired)| && Unsignalled(queue, fired)[k].signal.None?
  {
    UnsignalledMembers(queue, fired);
    assert queue[i] in Unsignalled(queue, fired);
  }

  lemma ReservedKeepsAnchor(s: Scheduler, e: Event)
    requires Inv(s) && s.reservations > 0 && Enabled(s, e) && !e.Stop? && Anchored(s)
    ensures Anchored(Step(s, e))
  {
    hide Books, Evolves, Fill;
    var i :| 0 <= i < |s.backgroundQueue| && s.backgroundQueue[i].signal.None?;
    match e
    case Submit(priority, signal) =>
      var t := Step(s, e);
      assert t.backgroundQueue[i] == s.backgroundQueue[i];
    case Settle(id) =>
      FinishBase(s, id);
      var t := s.(active := s.active - 1, ledger := Mark(s.ledger, id, Finished));
      BooksRange(t);
      FillWithheld(t);
    case Abort(fired) =>
      KeptEntry(s.backgroundQueue, i, fired);
    case PromotionDue =>
      BooksRange(s);
      FillWithheld(s.(promotion := None));
    case SampleDue =>
      BooksRange(s);
      var late := s.now - s.sample.value;
      FillWithheld(s.(sample := None).(lag := if late > 0.0 then late else 0.0));
    case _ =>
  }

  lemma HeldStep(s: Scheduler, e: Event, due: real)
    requires Inv(s) && s.accepting && Holds(s, due) && Enabled(s, e) && !ResolveActivity(e)
    ensures var t := Step(s, e);
            (t.backgroundStarts == s.backgroundStarts && (t.accepting ==> Holds(t, due))) || t.now >= due
  {
    hide Books, Evolves, Fill, Anchored;
    if s.reservations > 0 && Anchored(s) && !e.Stop? {
      ReservedKeepsAnchor(s, e);
    }
    EmptyUnanchored(s);
    match e
    case Settle(id) =>
      SettleStartsNoBackground(s, id);
      FinishBase(s, id);
      FillKeeps(s.(active := s.active - 1, ledger := Mark(s.ledger, id, Finished)));
    case PromotionDue => FillKeeps(s.(promotion := None));
    case SampleDue =>
      var late := s.now - s.sample.value;
      FillKeeps(s.(sample := None).(lag := if late > 0.0 then late else 0.0));
    case _ =>
  }

  lemma EmptyUnanchored(s: Scheduler)
    ensures s.backgroundQueue == [] ==> !Anchored(s)
  {
  }

  lemma {:induction false} HeldUntilDue(s: Scheduler, es: seq<Event>, t: Scheduler, due: real)
    requires Inv(s) && s.accepting && Holds(s, due) && Reaches(s, es, t) && NoResolveActivity(es)
    ensures t.now < due ==> t.backgroundStarts == s.backgroundStarts
    decreases |es|
  {
    hide Inv, Step, Enabled, Holds, Evolves;
    if es != [] {
      var u := Step(s, es[0]);
      StepKeeps(s, es[0]);
      assert !ResolveActivity(es[0]);
      HeldStep(s, es[0], due);
      NowGrows(u, es[1..], t);
      assert NoResolveActivity(es[1..]) by {
        assert forall i :: 0 <= i < |es[1..]| ==> es[1..][i] == es[i + 1];
      }
      if !u.accepting {
        NothingStarts(u, es[1..], t);
      } else if u.now < due {
        HeldUntilDue(u, es[1..], t, due);
      }
    }
  }

  lemma SettleArms(s: Scheduler, id: nat)
    requires Inv(s) && s.accepting && s.resolveQueue == [] && s.backgroundQueue != [] && Enabled(s, Settle(id))
    ensures var t := Step(s, Settle(id));
            && t.promotion == Some(PauseEnds(s, s.ledger.subs[id].kind))
            && t == s.(active := t.active, ledger := t.ledger, promotion := t.promotion)
  {
    hide Books, Evolves;
    SettledKeeps(s, id);
  }

  lemma SubmitArms(s: Scheduler, signal: Option<nat>)
    requires Inv(s) && s.accepting && !Fired(signal, s.aborted) && |s.backgroundQueue| < s.profile.backgroundQueueDepth
    ensures var t := Step(s, Submit(Background, signal));
            && t.promotion == Some(PauseEnds(s, Background))
            && t == s.(backgroundQueue := t.backgroundQueue, ledger := t.ledger, promotion := t.promotion)
  {
    hide Books, Evolves;
  }

  /** After an operation settles with background work waiting behind no Resolve work,
      the next background start is at least a pause away: the quiet period after a
      Resolve operation, the yield after a background one.  Held scopes must let the
      pause survive. */
  lemma SettleWindow(s: Scheduler, id: nat, es: seq<Event>, t: Scheduler)
    requires Inv(s) && s.accepting && s.resolveQueue == [] && s.backgroundQueue != [] && Enabled(s, Settle(id))
    requires s.reservations > 0 ==> Survives(s, PauseEnds(s, s.ledger.subs[id].kind))
    requires (StepKeeps(s, Settle(id)); Reaches(Step(s, Settle(id)), es, t)) && NoResolveActivity(es)
    ensures t.now < PauseEnds(s, s.ledger.subs[id].kind) ==> t.backgroundStarts == s.backgroundStarts
  {
    StepKeeps(s, Settle(id));
    SettleArms(s, id);
    hide Inv, Step, Enabled, Reaches, Evolves, PauseEnds, NoResolveActivity;
    HeldUntilDue(Step(s, Settle(id)), es, t, PauseEnds(s, s.ledger.subs[id].kind));
  }

  /** The pause is no longer than that: the timer may fire from the very instant on. */
  lemma SettlePauseEnds(s: Scheduler, id: nat, at: real)
    requires Inv(s) && s.accepting && s.resolveQueue == [] && s.backgroundQueue != [] && Enabled(s, Settle(id))
    ensures Enabled(Step(s, Settle(id)).(now := at), PromotionDue) <==> at >= PauseEnds(s, s.ledger.subs[id].kind)
  {
    SettleArms(s, id);
    hide Inv, Step, PauseEnds;
  }

  /** A background submission that is queued waits for the yield, or for the pause
      that is already running. */
  lemma SubmitWindow(s: Scheduler, signal: Option<nat>, es: seq<Event>, t: Scheduler)
    requires Inv(s) && s.accepting && !Fired(signal, s.aborted) && |s.backgroundQueue| < s.profile.backgroundQueueDepth
    requires s.reservations > 0 ==> Survives(s, PauseEnds(s, Background))
    requires (StepKeeps(s, Submit(Background, signal)); Reaches(Step(s, Submit(Background, signal)), es, t))
    requires NoResolveActivity(es)
    ensures t.now < PauseEnds(s, Background) ==> t.backgroundStarts == s.backgroundStarts
  {
    var e := Submit(Background, signal);
    StepKeeps(s, e);
    SubmitArms(s, signal);
    if s.reservations > 0 && Anchored(s) {
      ReservedKeepsAnchor(s, e);
    }
    hide Inv, Step, Enabled, Reaches, Evolves, PauseEnds, NoResolveActivity, Anchored;
    HeldUntilDue(Step(s, e), es, t, PauseEnds(s, Background));
  }

  lemma SubmitPauseEnds(s: Scheduler, signal: Option<nat>, at: real)
    requires Inv(s) && s.accepting && !Fired(signal, s.aborted) && |s.backgroundQueue| < s.profile.backgroundQueueDepth
    ensures Enabled(Step(s, Submit(Background, signal)).(now := at), PromotionDue) <==> at >= PauseEnds(s, Background)
  {
    SubmitArms(s, signal);
    hide Inv, Step, PauseEnds;
  }

  /** The last scope to end replaces any pause by the quiet period, even a longer one. */
  lemma ScopePauseEnds(s: Scheduler, at: real)
    requires Inv(s) && s.accepting && s.backgroundQueue != [] && s.reservations == 1
    ensures Enabled(Step(s, ExitScope).(now := at), PromotionDue) <==> at >= s.now + s.profile.quietMs
  {
    hide Books, Evolves;
  }

  // -------------------------------------------------------- what a fired timer does

  /** A fired promotion starts background work if and only if nothing holds it: a free
      slot, no reservation, no lag suppression. */
  lemma PromotionStartsIff(s: Scheduler)
    requires Inv(s) && Enabled(s, PromotionDue)
    ensures Step(s, PromotionDue).backgroundStarts > s.backgroundStarts
            <==> s.backgroundQueue != [] && s.active < s.profile.concurrency && s.reservations == 0 && !Suppressed(s)
  {
    hide Books, Evolves, Fill;
    BooksRange(s);
    FillKeeps(s.(promotion := None));
    TimersKeep(s);
  }

  // --------------------------------------- exactly when the quiet period is kept

  /** A run without Resolve activity. */
  ghost predicate QuietRun(s: Scheduler, es: seq<Event>, t: Scheduler)
    requires Inv(s)
  {
    Reaches(s, es, t) && NoResolveActivity(es)
  }

  lemma {:induction false} RunsJoin(s: Scheduler, es: seq<Event>, u: Scheduler, fs: seq<Event>, t: Scheduler)
    requires Inv(s) && QuietRun(s, es, u) && Inv(u) && QuietRun(u, fs, t)
    ensures QuietRun(s, es + fs, t)
    decreases |es|
  {
    hide Inv, Step, Enabled, Evolves;
    if es == [] {
      assert es + fs == fs;
    } else {
      StepKeeps(s, es[0]);
      assert !ResolveActivity(es[0]);
      assert forall i :: 0 <= i < |es[1..]| ==> es[1..][i] == es[i + 1];
      RunsJoin(Step(s, es[0]), es[1..], u, fs, t);
      assert (es + fs)[1..] == es[1..] + fs;
      assert forall i :: 0 <= i < |es + fs| ==> !ResolveActivity((es + fs)[i]);
    }
  }

  lemma OneStep(s: Scheduler, e: Event)
    requires Inv(s) && Enabled(s, e) && !ResolveActivity(e)
    ensures Inv(Step(s, e)) && QuietRun(s, [e], Step(s, e))
  {
    hide Inv, Step, Enabled, Evolves;
    StepKeeps(s, e);
    assert [e][1..] == [];
    assert Reaches(Step(s, e), [], Step(s, e));
  }

  /** What cancelling background work leaves alone. */
  predicate SameButQueues(s: Scheduler, t: Scheduler) {
    && t.profile == s.profile && t.accepting == s.accepting && t.now == s.now && t.lag == s.lag
    && t.active == s.active && t.reservations == s.reservations && t.backgroundStarts == s.backgroundStarts
  }

  lemma AbortStep(s: Scheduler, fired: nat)
    requires Inv(s) && s.accepting && s.backgroundQueue != [] && s.backgroundQueue[0].signal == Some(fired)
    ensures var t := Step(s, Abort(fired));
            && SameButQueues(s, t)
            && |t.backgroundQueue| < |s.backgroundQueue|
            && (!Anchored(s) ==> !Anchored(t))
            && (s.resolveQueue == [] ==> t.resolveQueue == [])
  {
    UnsignalledMembers(s.backgroundQueue, fired);
    UnsignalledMembers(s.backgroundQueue[1..], fired);
    var t := Step(s, Abort(fired));
    assert t.backgroundQueue == Unsignalled(s.backgroundQueue, fired);
    forall i | 0 <= i < |t.backgroundQueue| ensures t.backgroundQueue[i] in s.backgroundQueue {
      assert t.backgroundQueue[i] in t.backgroundQueue;
    }
  }

  /** Background work that can be cancelled can all be cancelled. */
  lemma {:induction false} CancelsAll(s: Scheduler) returns (es: seq<Event>, t: Scheduler)
    requires Inv(s) && s.accepting && !Anchored(s) && s.resolveQueue == []
    ensures QuietRun(s, es, t) && Inv(t) && SameButQueues(s, t) && t.backgroundQueue == [] && t.resolveQueue == []
    decreases |s.backgroundQueue|
  {
    if s.backgroundQueue == [] {
      es, t := [], s;
    } else {
      assert s.backgroundQueue[0].signal.Some?;
      var e := Abort(s.backgroundQueue[0].signal.value);
      AbortStep(s, e.fired);
      assert Enabled(s, e);
      OneStep(s, e);
      hide Inv, Step, Enabled, QuietRun, Anchored;
      var rest;
      rest, t := CancelsAll(Step(s, e));
      RunsJoin(s, [e], Step(s, e), rest, t);
      es := [e] + rest;
    }
  }

  lemma ExitStep(s: Scheduler)
    requires Inv(s) && s.accepting && s.backgroundQueue == [] && s.reservations > 0
    ensures Enabled(s, ExitScope)
    ensures var t := Step(s, ExitScope);
            && SameButQueues(s, t.(reservations := s.reservations)) && t.reservations == s.reservations - 1
            && t.backgroundQueue == [] && t.resolveQueue == s.resolveQueue
            && (t.reservations == 0 ==> t.promotion.None?)
  {
    hide Books;
  }

  /** With nothing waiting the last scope to end leaves nothing armed. */
  lemma {:induction false} ExitsAll(s: Scheduler) returns (es: seq<Event>, t: Scheduler)
    requires Inv(s) && s.accepting && s.backgroundQueue == [] && s.resolveQueue == [] && s.reservations > 0
    ensures QuietRun(s, es, t) && Inv(t) && SameButQueues(s, t.(reservations := s.reservations)) && t.reservations == 0
    ensures t.backgroundQueue == [] && t.resolveQueue == [] && t.promotion.None?
    decreases s.reservations
  {
    ExitStep(s);
    OneStep(s, ExitScope);
    hide Inv, Step, Enabled, QuietRun;
    var u := Step(s, ExitScope);
    if u.reservations == 0 {
      es, t := [ExitScope], u;
    } else {
      var rest;
      rest, t := ExitsAll(u);
      RunsJoin(s, [ExitScope], u, rest, t);
      es := [ExitScope] + rest;
    }
  }

  lemma SubmittedAlone(s: Scheduler)
    requires Inv(s) && s.accepting && s.backgroundQueue == [] && s.promotion.None?
    ensures Enabled(s, Submit(Background, None))
    ensures s.profile.yieldMs >= 0.0
    ensures var t := Step(s, Submit(Background, None));
            && SameButQueues(s, t) && t.backgroundQueue != [] && t.promotion == Some(s.now + s.profile.yieldMs)
  {
    hide Books;
  }

  /** Work submitted to an idle background queue starts after the yield. */
  lemma StartsAfterYield(s: Scheduler) returns (es: seq<Event>, t: Scheduler)
    requires Inv(s) && s.accepting && s.backgroundQueue == [] && s.promotion.None?
    requires s.active < s.profile.concurrency && s.reservations == 0 && !Suppressed(s)
    ensures QuietRun(s, es, t) && t.now == s.now + s.profile.yieldMs && t.backgroundStarts > s.backgroundStarts
  {
    var e, pass := Submit(Background, None), Pass(s.now + s.profile.yieldMs);
    SubmittedAlone(s);
    OneStep(s, e);
    var u := Step(s, e);
    hide Step, QuietRun;
    var rest;
    rest, t := FiresAfterYield(u, pass.to);
    hide Inv, Enabled;
    RunsJoin(s, [e], u, rest, t);
    es := [e] + rest;
  }

  lemma FiresAfterYield(u: Scheduler, due: real) returns (es: seq<Event>, t: Scheduler)
    requires Inv(u) && u.promotion == Some(due) && u.now <= due
    requires u.backgroundQueue != [] && u.active < u.profile.concurrency && u.reservations == 0 && !Suppressed(u)
    ensures QuietRun(u, es, t) && t.now == due && t.backgroundStarts > u.backgroundStarts
  {
    var v := u.(now := due);
    assert Step(u, Pass(due)) == v;
    OneStep(u, Pass(due));
    hide Inv, Step, QuietRun;
    PromotionStartsIff(v);
    PromotionNow(v);
    OneStep(v, PromotionDue);
    t := Step(v, PromotionDue);
    RunsJoin(u, [Pass(due)], v, [PromotionDue], t);
    es := [Pass(due)] + [PromotionDue];
  }

  lemma PromotionNow(s: Scheduler)
    requires Inv(s) && Enabled(s, PromotionDue)
    ensures Step(s, PromotionDue).now == s.now
  {
    hide Books, Evolves, Fill;
    BooksRange(s);
    FillKeeps(s.(promotion := None));
  }

  /** No background work starts within the quiet period after a Resolve operation has
      settled, whatever happens short of further Resolve work. */
  ghost predicate QuietKept(s: Scheduler, id: nat)
    requires Inv(s) && Enabled(s, Settle(id))
  {
    StepKeeps(s, Settle(id));
    forall es, t :: QuietRun(Step(s, Settle(id)), es, t) && t.now < s.now + s.profile.quietMs
                    ==> t.backgroundStarts == s.backgroundStarts
  }

  /** It is kept without a scope, with a quiet period no longer than the yield, and
      with waiting work that nothing can cancel; and, unless the lag suppression
      already holds the work back, only then. */
  lemma QuietKeptIff(s: Scheduler, id: nat)
    requires Inv(s) && s.accepting && s.resolveQueue == [] && s.backgroundQueue != [] && s.promotion.None?
    requires Enabled(s, Settle(id)) && s.ledger.subs[id].kind.Resolve?
    ensures s.reservations == 0 || s.profile.quietMs <= s.profile.yieldMs || Anchored(s) ==> QuietKept(s, id)
    ensures !Suppressed(s) && QuietKept(s, id) ==>
              s.reservations == 0 || s.profile.quietMs <= s.profile.yieldMs || Anchored(s)
  {
    StepKeeps(s, Settle(id));
    if s.reservations == 0 || s.profile.quietMs <= s.profile.yieldMs || Anchored(s) {
      forall es, t | QuietRun(Step(s, Settle(id)), es, t) && t.now < s.now + s.profile.quietMs
        ensures t.backgroundStarts == s.backgroundStarts
      {
        hide Inv, Step, Enabled, Reaches, NoResolveActivity;
        SettleWindow(s, id, es, t);
      }
    } else if !Suppressed(s) {
      SettleArms(s, id);
      SettleFrees(s, id);
      hide Inv, Enabled, Reaches, NoResolveActivity, QuietRun, Step;
      QuietBroken(s, Step(s, Settle(id)));
    }
  }

  lemma SettleFrees(s: Scheduler, id: nat)
    requires Inv(s) && s.resolveQueue == [] && Enabled(s, Settle(id))
    ensures Step(s, Settle(id)).active < s.profile.concurrency
  {
    hide Books, Evolves;
    SettleStartsNoBackground(s, id);
  }

  /** The failing run: the waiting work is cancelled, the scopes end with nothing
      waiting, and new work waits only for the yield. */
  lemma QuietBroken(s: Scheduler, u: Scheduler)
    requires Inv(u) && s.accepting && s.profile.yieldMs < s.profile.quietMs && !Anchored(s) && !Suppressed(s)
    requires s.resolveQueue == [] && s.reservations > 0
    requires u == s.(active := u.active, ledger := u.ledger, promotion := u.promotion) && u.active < s.profile.concurrency
    ensures exists es, t :: QuietRun(u, es, t) && t.now < s.now + s.profile.quietMs && t.backgroundStarts > s.backgroundStarts
  {
    assert !Anchored(u);
    hide Inv, Step, Enabled, QuietRun, Anchored;
    var es, v := CancelsAll(u);
    var fs, w := ExitsAll(v);
    var gs, t := StartsAfterYield(w);
    RunsJoin(v, fs, w, gs, t);
    RunsJoin(u, es, v, fs + gs, t);
    assert QuietRun(u, es + (fs + gs), t);
  }

  predicate LateSample(s: Scheduler) {
    s.sample.Some? && s.now - s.sample.value > s.profile.warningMs
  }

  /** A sample starts background work if and only if it comes in time and nothing else
      holds the work. */
  lemma SampleStartsIff(s: Scheduler)
    requires Inv(s) && Enabled(s, SampleDue)
    ensures Step(s, SampleDue).backgroundStarts > s.backgroundStarts
            <==> && s.backgroundQueue != [] && s.active < s.profile.concurrency && s.reservations == 0
                 && s.promotion.None? && !LateSample(s)
  {
    hide Books, Evolves, Fill;
    BooksRange(s);
    var late := s.now - s.sample.value;
    FillKeeps(s.(sample := None).(lag := if late > 0.0 then late else 0.0));
    TimersKeep(s);
  }

  // ----------------------------------------------------------------- suppression

  ghost predicate Never(es: seq<Event>, bad: Event -> bool) {
    forall i :: 0 <= i < |es| ==> !bad(es[i])
  }

  function Samples(): Event -> bool {
    (e: Event) => e.SampleDue?
  }

  /** A sample taken too late holds background work back until the next one. */
  lemma LateSampleHolds(s: Scheduler, es: seq<Event>, t: Scheduler)
    requires Inv(s) && s.accepting && Enabled(s, SampleDue) && LateSample(s)
    requires (StepKeeps(s, SampleDue); Reaches(Step(s, SampleDue), es, t)) && Never(es, Samples())
    ensures t.backgroundStarts == s.backgroundStarts
  {
    StepKeeps(s, SampleDue);
    LateSampleSuppresses(s, s.now);
    hide Inv, Step, Enabled, Reaches, Evolves, Never, Suppressed;
    SuppressedRun(Step(s, SampleDue), es, t);
  }

  /** Every sample arms the next one, one period on. */
  lemma LateSampleSuppresses(s: Scheduler, at: real)
    requires Inv(s) && s.accepting && Enabled(s, SampleDue)
    ensures Suppressed(Step(s, SampleDue)) <==> LateSample(s)
    ensures Enabled(Step(s, SampleDue).(now := at), SampleDue) <==> at >= s.now + s.profile.sampleMs
    ensures LateSample(s) ==> Step(s, SampleDue).backgroundStarts == s.backgroundStarts
  {
    hide Books, Evolves, Fill;
    BooksRange(s);
    var late := s.now - s.sample.value;
    FillKeeps(s.(sample := None).(lag := if late > 0.0 then late else 0.0));
    TimersKeep(s);
  }

  lemma SuppressedStep(s: Scheduler, e: Event)
    requires Inv(s) && Suppressed(s) && Enabled(s, e) && !e.SampleDue?
    ensures Suppressed(Step(s, e)) && Step(s, e).backgroundStarts == s.backgroundStarts
  {
    hide Books, Evolves, Fill;
    match e
    case Settle(id) =>
      SettleStartsNoBackground(s, id);
      FinishBase(s, id);
      FillKeeps(s.(active := s.active - 1, ledger := Mark(s.ledger, id, Finished)));
    case PromotionDue => FillKeeps(s.(promotion := None));
    case _ =>
  }

  lemma {:induction false} SuppressedRun(s: Scheduler, es: seq<Event>, t: Scheduler)
    requires Inv(s) && Suppressed(s) && Reaches(s, es, t) && Never(es, Samples())
    ensures t.backgroundStarts == s.backgroundStarts
    decreases |es|
  {
    hide Inv, Step, Enabled, Suppressed, Evolves;
    if es != [] {
      StepKeeps(s, es[0]);
      assert !Samples()(es[0]);
      SuppressedStep(s, es[0]);
      NeverTail(es, Samples());
      SuppressedRun(Step(s, es[0]), es[1..], t);
    }
  }

  lemma NeverTail(es: seq<Event>, bad: Event -> bool)
    requires Never(es, bad) && es != []
    ensures Never(es[1..], bad)
  {
    assert forall i :: 0 <= i < |es[1..]| ==> es[1..][i] == es[i + 1];
  }

  // ------------------------------------------------------------- Resolve goes first

  function Exits(): Event -> bool {
    (e: Event) => e.ExitScope?
  }

  /** Entering a scope drops the pending promotion, and while the scope is held no
      background work starts. */
  lemma ScopeHolds(s: Scheduler, es: seq<Event>, t: Scheduler)
    requires Inv(s) && (StepKeeps(s, EnterScope); Reaches(Step(s, EnterScope), es, t)) && Never(es, Exits())
    ensures Step(s, EnterScope).promotion.None?
    ensures t.backgroundStarts == s.backgroundStarts && t.reservations > s.reservations
  {
    StepKeeps(s, EnterScope);
    hide Inv, Enabled, Reaches, Evolves, Never;
    ReservedRun(Step(s, EnterScope), es, t);
  }

  lemma ReservedStep(s: Scheduler, e: Event)
    requires Inv(s) && s.reservations > 0 && Enabled(s, e) && !e.ExitScope?
    ensures Step(s, e).reservations >= s.reservations && Step(s, e).backgroundStarts == s.backgroundStarts
  {
    hide Books, Evolves, Fill;
    match e
    case Settle(id) =>
      SettleStartsNoBackground(s, id);
      FinishBase(s, id);
      FillKeeps(s.(active := s.active - 1, ledger := Mark(s.ledger, id, Finished)));
    case PromotionDue => FillKeeps(s.(promotion := None));
    case SampleDue =>
      var late := s.now - s.sample.value;
      FillKeeps(s.(sample := None).(lag := if late > 0.0 then late else 0.0));
    case _ =>
  }

  lemma {:induction false} ReservedRun(s: Scheduler, es: seq<Event>, t: Scheduler)
    requires Inv(s) && s.reservations > 0 && Reaches(s, es, t) && Never(es, Exits())
    ensures t.backgroundStarts == s.backgroundStarts && t.reservations >= s.reservations
    decreases |es|
  {
    hide Inv, Step, Enabled, Evolves;
    if es != [] {
      StepKeeps(s, es[0]);
      assert !Exits()(es[0]);
      ReservedStep(s, es[0]);
      NeverTail(es, Exits());
      ReservedRun(Step(s, es[0]), es[1..], t);
    }
  }

  /** What can bring background work up again once no promotion is pending. */
  function Rearms(): Event -> bool {
    (e: Event) => e.Settle? || e.ExitScope? || e.SampleDue? || (e.Submit? && e.priority.Background?)
  }

  /** A Resolve submission takes the window: the pending promotion is gone, and no
      background work starts before something settles, a scope ends, a sample is
      taken or background work is submitted. */
  lemma ResolveTakesWindow(s: Scheduler, signal: Option<nat>, es: seq<Event>, t: Scheduler)
    requires Inv(s) && s.accepting && !Fired(signal, s.aborted)
    requires (StepKeeps(s, Submit(Resolve, signal)); Reaches(Step(s, Submit(Resolve, signal)), es, t)) && Never(es, Rearms())
    ensures t.backgroundStarts == s.backgroundStarts && t.promotion.None?
  {
    var e := Submit(Resolve, signal);
    StepKeeps(s, e);
    ResolveDisarms(s, signal);
    hide Inv, Step, Enabled, Reaches, Evolves, Never;
    DisarmedRun(Step(s, e), es, t);
  }

  lemma ResolveDisarms(s: Scheduler, signal: Option<nat>)
    requires Inv(s) && s.accepting && !Fired(signal, s.aborted)
    ensures var t := Step(s, Submit(Resolve, signal)); t.promotion.None? && t.backgroundStarts == s.backgroundStarts
  {
    hide Books, Evolves;
  }

  lemma DisarmedStep(s: Scheduler, e: Event)
    requires Inv(s) && s.promotion.None? && Enabled(s, e) && !Rearms()(e)
    ensures Step(s, e).promotion.None? && Step(s, e).backgroundStarts == s.backgroundStarts
  {
    hide Books, Evolves;
  }

  lemma {:induction false} DisarmedRun(s: Scheduler, es: seq<Event>, t: Scheduler)
    requires Inv(s) && s.promotion.None? && Reaches(s, es, t) && Never(es, Rearms())
    ensures t.backgroundStarts == s.backgroundStarts && t.promotion.None?
    decreases |es|
  {
    hide Inv, Step, Enabled, Evolves;
    if es != [] {
      StepKeeps(s, es[0]);
      DisarmedStep(s, es[0]);
      NeverTail(es, Rearms());
      DisarmedRun(Step(s, es[0]), es[1..], t);
    }
  }
}
