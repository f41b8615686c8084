/**
 One request's time: what is left of it, what a stage may spend, and races and
 signals that leave nothing armed behind.

 Times are whole milliseconds on a clock that never steps back.
 */
module RequestBudgets {
  import opened Wrappers

  datatype Deadlines = Deadlines(totalMs: int, selectionMs: int, assemblyReserveMs: int, managedSearchCeilingMs: int)

  datatype ProfileProblem = DeadlineInvalid(field: nat) | StagesExceedTotal | SearchCeilingExceedsBudget

  /** The first rule the deadlines break, fields in their order. */
  function Problem(p: Deadlines): Option<ProfileProblem> {
    if p.totalMs < 1 then Some(DeadlineInvalid(0))
    else if p.selectionMs < 1 then Some(DeadlineInvalid(1))
    else if p.assemblyReserveMs < 1 then Some(DeadlineInvalid(2))
    else if p.managedSearchCeilingMs < 1 then Some(DeadlineInvalid(3))
    else if p.selectionMs + p.assemblyReserveMs >= p.totalMs then Some(StagesExceedTotal)
    else if p.managedSearchCeilingMs > p.totalMs - p.assemblyReserveMs then Some(SearchCeilingExceedsBudget)
    else None
  }

  // ------------------------------------------------------------------ allowances

  function AtLeastZero(x: int): int {
    if x < 0 then 0 else x
  }

  function Smaller(a: int, b: int): int {
    if a <= b then a else b
  }

  /** The request's profile and the instant it arrived. */
  datatype Request = Request(profile: Deadlines, startedAt: int)

  function Elapsed(r: Request, now: int): int {
    AtLeastZero(now - r.startedAt)
  }

  function Remaining(r: Request, now: int): int {
    AtLeastZero(r.profile.totalMs - Elapsed(r, now))
  }

  function Workable(r: Request, now: int): int {
    AtLeastZero(Remaining(r, now) - r.profile.assemblyReserveMs)
  }

  function SelectionAllowance(r: Request, now: int): int {
    Smaller(r.profile.selectionMs, Workable(r, now))
  }

  function SearchAllowance(r: Request, now: int): int {
    Smaller(r.profile.managedSearchCeilingMs, Workable(r, now))
  }

  /** No allowance reaches into the reserve: after spending one in full the reserve
      is still there, if it was there before. */
  lemma AllowancesSpareReserve(r: Request, now: int, spent: nat)
    requires Problem(r.profile).None? && now >= r.startedAt
    requires spent <= Workable(r, now)
    ensures Workable(r, now) > 0 ==> Remaining(r, now + spent) >= r.profile.assemblyReserveMs
    ensures SelectionAllowance(r, now) <= Workable(r, now) && SearchAllowance(r, now) <= Workable(r, now)
    ensures Workable(r, now + spent) == Workable(r, now) - spent
  {
  }

  /** A request that has not waited keeps something workable for after a selection
      that used its whole allowance. */
  lemma FreshSelectionLeavesWork(r: Request)
    requires Problem(r.profile).None?
    ensures SelectionAllowance(r, r.startedAt) == r.profile.selectionMs
    ensures Workable(r, r.startedAt + SelectionAllowance(r, r.startedAt)) > 0
    ensures SearchAllowance(r, r.startedAt) == r.profile.managedSearchCeilingMs
  {
  }

  // ------------------------------------------------------------------------ races

  datatype Outcome<+T> = Resolved(value: T) | Rejected | RequestDeadlineExceeded | StageDeadlineExceeded

  /** What can happen to a running race. */
  datatype Event<+T> = WorkResolves(value: T) | WorkRejects | TimerFires | CallerAborts

  datatype Race<+T> = Race(settled: bool, outcome: Option<Outcome<T>>)

  /** Every callback checks the flag, then settles. */
  function Handle<T>(race: Race<T>, event: Event<T>): Race<T> {
    if race.settled then race
    else
      match event
      case WorkResolves(value) => Race(true, Some(Resolved(value)))
      case WorkRejects => Race(true, Some(Rejected))
      case TimerFires => Race(true, Some(StageDeadlineExceeded))
      case CallerAborts => Race(true, Some(RequestDeadlineExceeded))
  }

  function Play<T>(race: Race<T>, events: seq<Event<T>>): Race<T>
    decreases |events|
  {
    if events == [] then race else Play(Handle(race, events[0]), events[1..])
  }

  /** A race settles once: the first event decides it, whatever follows. */
  lemma {:induction false} FirstEventDecides<T>(event: Event<T>, later: seq<Event<T>>)
    ensures Play(Race(false, None), [event] + later) == Handle(Race(false, None), event)
    ensures Handle(Race(false, None), event).outcome.Some?
  {
    var race := Handle(Race(false, None), event);
    assert ([event] + later)[1..] == later;
    SettledStays(race, later);
  }

  lemma {:induction false} SettledStays<T>(race: Race<T>, events: seq<Event<T>>)
    requires race.settled
    ensures Play(race, events) == race
  {
    if events != [] {
      SettledStays(race, events[1..]);
    }
  }

  /** When something happens: so many milliseconds on, and in which turn of that
      millisecond. */
  datatype Happening = Happening(ms: nat, turn: nat)

  predicate Sooner(a: Happening, b: Happening) {
    a.ms < b.ms || (a.ms == b.ms && a.turn < b.turn)
  }

  /** When the work settles, and with which value; without one it rejects. */
  datatype Work<+T> = Work(at: Happening, value: Option<T>)

  /** What happens during a wait.  Work may never settle and the caller never give up;
      the timer does fire, `timer.ms` later than it is due. */
  datatype Wait<+T> = Wait(work: Option<Work<T>>, abort: Option<Happening>, timer: Happening)

  function TimerAt(limit: nat, timer: Happening): Happening {
    timer.(ms := limit + timer.ms)
  }

  datatype Ended<+T> = Ended(event: Event<T>, ms: nat)

  /** The first of the three events of a race. */
  function FirstEvent<T>(limit: nat, wait: Wait<T>): Ended<T> {
    var timer := TimerAt(limit, wait.timer);
    if && wait.work.Some? && !Sooner(timer, wait.work.value.at)
       && (wait.abort.None? || !Sooner(wait.abort.value, wait.work.value.at))
    then
      var work := wait.work.value;
      Ended(if work.value.Some? then WorkResolves(work.value.value) else WorkRejects, work.at.ms)
    else if wait.abort.Some? && !Sooner(timer, wait.abort.value) then Ended(CallerAborts, wait.abort.value.ms)
    else Ended(TimerFires, timer.ms)
  }

  /** No event of the race comes before the first one, and the first one is one of
      them. */
  lemma FirstEventIs<T>(limit: nat, wait: Wait<T>)
    ensures var first := FirstEvent(limit, wait);
            && first.ms <= limit + wait.timer.ms
            && (wait.work.Some? ==> first.ms <= wait.work.value.at.ms)
            && (wait.abort.Some? ==> first.ms <= wait.abort.value.ms)
            && (match first.event
                case WorkResolves(value) => wait.work.Some? && wait.work.value.value == Some(value) && first.ms == wait.work.value.at.ms
                case WorkRejects => wait.work.Some? && wait.work.value.value.None? && first.ms == wait.work.value.at.ms
                case CallerAborts => wait.abort.Some? && first.ms == wait.abort.value.ms
                case TimerFires => first.ms == limit + wait.timer.ms)
  {
  }

  /** What a race comes to: nothing is waited for once the caller has gone or the
      allowance is used up. */
  function RaceOutcome<T>(aborted: bool, limit: int, wait: Wait<T>): (outcome: Outcome<T>) {
    if aborted then RequestDeadlineExceeded
    else if limit <= 0 then StageDeadlineExceeded
    else Handle(Race(false, None), FirstEvent(limit, wait).event).outcome.value
  }

  function RaceMs<T>(aborted: bool, limit: int, wait: Wait<T>): nat {
    if aborted || limit <= 0 then 0 else FirstEvent(limit, wait).ms
  }

  /** Whether the caller has gone when a race is over. */
  predicate Abandoned<T>(aborted: bool, limit: int, wait: Wait<T>) {
    aborted || (limit > 0 && FirstEvent(limit, wait).event.CallerAborts?)
  }

  /** A race is won only by work that settled before the timer fired and the caller
      gave up, and costs at most the allowance and what the timer was late by. */
  lemma WonRaceLeavesRest<T>(r: Request, now: int, limit: int, aborted: bool, wait: Wait<T>)
    requires now >= r.startedAt && limit <= Workable(r, now)
    requires RaceOutcome(aborted, limit, wait).Resolved?
    ensures !aborted && limit > 0 && !Abandoned(aborted, limit, wait)
    ensures wait.work.Some? && wait.work.value.value == Some(RaceOutcome(aborted, limit, wait).value)
    ensures Workable(r, now + RaceMs(aborted, limit, wait)) >= Workable(r, now) - limit - wait.timer.ms
  {
    FirstEventIs(limit, wait);
  }

  // ---------------------------------------------------------------------- signals

  datatype Reason = StageReason | RequestReason

  /** Why a signal armed for `due` milliseconds is aborted by the time of `at`: the
      first of its timer and its caller, if either came. */
  function ReasonBy(due: nat, timer: Happening, abort: Option<Happening>, at: Happening): Option<Reason> {
    var fires := TimerAt(due, timer);
    if abort.Some? && Sooner(abort.value, at) && !Sooner(fires, abort.value) then Some(RequestReason)
    else if Sooner(fires, at) then Some(StageReason)
    else None
  }

  function SignalReason(aborted: bool, limit: int, timer: Happening, abort: Option<Happening>, at: Happening): Option<Reason> {
    if limit <= 0 then Some(StageReason)
    else if aborted then Some(RequestReason)
    else ReasonBy(limit, timer, abort, at)
  }

  /** A signal carries the request's reason only if the caller gave up. */
  lemma RequestReasonMeansCaller(aborted: bool, limit: int, timer: Happening, abort: Option<Happening>, at: Happening)
    ensures SignalReason(aborted, limit, timer, abort, at) == Some(RequestReason) ==>
              aborted || (abort.Some? && Sooner(abort.value, at))
    ensures SignalReason(aborted, limit, timer, abort, at).None? ==> at.ms <= limit + timer.ms
  {
  }

  // ------------------------------------------------------------------- the object

  /**
   The clock, the caller's signal and what is armed on them.  `timers` holds when
   each armed timer is due.
   */
  class RequestBudget {
    const request: Request
    var now: int
    var aborted: bool
    var nextId: nat
    var timers: map<nat, int>
    var listeners: set<nat>

    ghost predicate Valid()
      reads this
    {
      && (forall id :: id in timers ==> id < nextId)
      && (forall id :: id in listeners ==> id < nextId)
    }

    constructor (profile: Deadlines, startedAt: int, now: int, aborted: bool)
      ensures request == Request(profile, startedAt)
      ensures this.now == now && this.aborted == aborted && timers == map[] && listeners == {} && Valid()
    {
      request := Request(profile, startedAt);
      this.now := now;
      this.aborted := aborted;
      nextId := 0;
      timers := map[];
      listeners := {};
    }

    /** Refuses when no safe answer can be produced any more. */
    method AssertCanAssemble() returns (refused: bool)
      ensures refused <==> aborted || Remaining(request, now) == 0
    {
      refused := aborted || Remaining(request, now) <= 0;
    }

    method AssertWorkable() returns (refusal: Option<Reason>)
      ensures refusal == if aborted then Some(RequestReason)
                         else if Workable(request, now) == 0 then Some(StageReason)
                         else None
    {
      if aborted {
        return Some(RequestReason);
      }
      if Workable(request, now) <= 0 {
        return Some(StageReason);
      }
      refusal := None;
    }

    /** Synchronous work only lets time pass. */
    method Spend(ms: nat)
      modifies this`now
      ensures now == old(now) + ms
    {
      now := now + ms;
    }

    method Arm(limit: int) returns (id: nat)
      requires Valid()
      modifies this`timers, this`nextId, this`listeners
      ensures Valid() && id == old(nextId) && nextId == id + 1
      ensures timers == old(timers)[id := now + limit] && listeners == old(listeners) + {id}
    {
      id := nextId;
      nextId := nextId + 1;
      timers := timers[id := now + limit];
      listeners := listeners + {id};
    }

    method Disarm(id: nat)
      requires Valid()
      modifies this`timers, this`listeners
      ensures Valid() && timers == old(timers) - {id} && listeners == old(listeners) - {id}
    {
      timers := timers - {id};
      listeners := listeners - {id};
    }

    /** Waits for the first event.  On every path what was armed for the stage is
        disarmed again. */
    method RaceStage<T>(limit: int, wait: Wait<T>) returns (outcome: Outcome<T>)
      requires Valid()
      modifies this`now, this`aborted, this`nextId, this`timers, this`listeners
      ensures Valid()
      ensures outcome == RaceOutcome(old(aborted), limit, wait)
      ensures now == old(now) + RaceMs(old(aborted), limit, wait)
      ensures aborted <==> Abandoned(old(aborted), limit, wait)
      ensures timers == old(timers) && listeners == old(listeners)
    {
      if aborted {
        return RequestDeadlineExceeded;
      }
      if limit <= 0 {
        return StageDeadlineExceeded;
      }
      var id := Arm(limit);
      assert id !in old(timers) && id !in old(listeners);
      var first := FirstEvent(timers[id] - now, wait);
      now := now + first.ms;
      if first.event.CallerAborts? {
        aborted := true;
      }
      var race := Handle(Race(false, None), first.event);
      outcome := race.outcome.value;
      Disarm(id);
      assert timers == old(timers) && listeners == old(listeners);
    }

    /** A signal for a stage that takes one: already aborted without an allowance,
        armed otherwise. */
    method StageSignal(limit: int) returns (armed: Option<nat>, reason: Option<Reason>)
      requires Valid()
      modifies this`nextId, this`timers, this`listeners
      ensures Valid()
      ensures limit <= 0 ==>
                armed == None && reason == Some(StageReason) && timers == old(timers) && listeners == old(listeners)
      ensures limit > 0 ==>
                && armed == Some(old(nextId))
                && reason == (if aborted then Some(RequestReason) else None)
                && timers == old(timers)[old(nextId) := now + limit]
                && listeners == old(listeners) + {old(nextId)}
    {
      if limit <= 0 {
        return None, Some(StageReason);
      }
      var id := Arm(limit);
      armed := Some(id);
      reason := if aborted then Some(RequestReason) else None;
    }

    /** Disposing of a signal twice is disposing of it once. */
    method Dispose(armed: Option<nat>)
      requires Valid()
      modifies this`timers, this`listeners
      ensures Valid()
      ensures armed.None? ==> timers == old(timers) && listeners == old(listeners)
      ensures armed.Some? ==> timers == old(timers) - {armed.value} && listeners == old(listeners) - {armed.value}
    {
      if armed.Some? {
        Disarm(armed.value);
      }
    }

    /** The whole request's signal: armed for what remains, or aborted at once. */
    method TotalSignal() returns (armed: Option<nat>)
      requires Valid()
      modifies this`nextId, this`timers, this`listeners
      ensures Valid()
      ensures armed.Some? <==> !aborted && Remaining(request, now) > 0
      ensures armed.None? ==> timers == old(timers) && listeners == old(listeners)
      ensures armed.Some? ==>
                && armed.value == old(nextId)
                && timers == old(timers)[armed.value := now + Remaining(request, now)]
                && listeners == old(listeners) + {armed.value}
    {
      if aborted || Remaining(request, now) <= 0 {
        return None;
      }
      var id := Arm(Remaining(request, now));
      armed := Some(id);
    }
  }

  /** The total signal fires exactly at the deadline, however long the request waited
      before asking for it. */
  lemma TotalSignalDueAtDeadline(r: Request, now: int)
    requires now >= r.startedAt && Remaining(r, now) > 0
    ensures now + Remaining(r, now) == r.startedAt + r.profile.totalMs
  {
  }
}
