/**
 One query run over one request's budget: selection, its audit, one managed search
 and assembly, each spending what the ones before it left.
 */
module ContextApplication {
  import opened Wrappers
  import opened Texts
  import opened RequestBudgets

  // ------------------------------------------------------- outcomes of the targets

  datatype Fault = Fault(deadline: bool, code: Code, retriable: bool)

  datatype Code = DeadlineExceeded | UnexpectedFailure | SearchCode(code: Text)

  datatype Item<+C> = Fulfilled(key: Text, hits: C) | Failed(key: Text, code: Text, retriable: bool)

  datatype Managed<+C> = ManagedFulfilled(key: Text, hits: C) | ManagedFailed(key: Text, fault: Fault)

  /** The last item listed for the key: later entries of the map replace earlier ones. */
  function LastItem<C>(items: seq<Item<C>>, key: Text): Option<Item<C>> {
    if items == [] then None
    else if items[|items| - 1].key == key then Some(items[|items| - 1])
    else LastItem(items[..|items| - 1], key)
  }

  function Project<C>(items: seq<Item<C>>, key: Text): Managed<C> {
    match LastItem(items, key)
    case None => ManagedFailed(key, Fault(false, UnexpectedFailure, false))
    case Some(Failed(_, code, retriable)) => ManagedFailed(key, Fault(false, SearchCode(code), retriable))
    case Some(Fulfilled(_, hits)) => ManagedFulfilled(key, hits)
  }

  function ProjectAll<C>(items: seq<Item<C>>, targets: seq<Text>): (outcomes: seq<Managed<C>>)
    ensures |outcomes| == |targets|
    ensures forall i :: 0 <= i < |targets| ==> outcomes[i] == Project(items, targets[i])
  {
    seq(|targets|, i requires 0 <= i < |targets| => Project(items, targets[i]))
  }

  lemma {:induction false} LastItemIs<C>(items: seq<Item<C>>, key: Text)
    ensures LastItem(items, key).None? <==> forall i :: 0 <= i < |items| ==> items[i].key != key
    ensures LastItem(items, key).Some? ==>
              exists i :: 0 <= i < |items| && items[i] == LastItem(items, key).value && items[i].key == key
                          && forall j :: i < j < |items| ==> items[j].key != key
  {
    if items != [] {
      var last := |items| - 1;
      LastItemIs(items[..last], key);
      if items[last].key == key {
        assert items[last] == LastItem(items, key).value;
      }
    }
  }

  /** A target is fulfilled only with hits the search reported for it, and reported
      last; a target without any report is a failure, never an empty success. */
  lemma NothingInvented<C>(items: seq<Item<C>>, targets: seq<Text>, i: nat)
    requires i < |targets|
    ensures var outcome := ProjectAll(items, targets)[i];
            && outcome.key == targets[i]
            && (outcome.ManagedFulfilled? ==> Fulfilled(targets[i], outcome.hits) in items)
            && ((forall item :: item in items ==> item.key != targets[i]) ==>
                  outcome == ManagedFailed(targets[i], Fault(false, UnexpectedFailure, false)))
  {
    LastItemIs(items, targets[i]);
    if k :| 0 <= k < |items| && items[k].key == targets[i] {
      assert items[k] in items;
    }
  }

  /** The last report on a target is its outcome, whatever was reported before. */
  lemma LastReportCounts<C>(items: seq<Item<C>>, targets: seq<Text>, i: nat, k: nat)
    requires i < |targets| && k < |items| && items[k].key == targets[i]
    requires forall j :: k < j < |items| ==> items[j].key != targets[i]
    ensures ProjectAll(items, targets)[i]
            == match items[k]
               case Fulfilled(_, hits) => ManagedFulfilled(targets[i], hits)
               case Failed(_, code, retriable) => ManagedFailed(targets[i], Fault(false, SearchCode(code), retriable))
  {
    LastItemIs(items, targets[i]);
    var last :| 0 <= last < |items| && items[last] == LastItem(items, targets[i]).value && items[last].key == targets[i]
                && forall j :: last < j < |items| ==> items[j].key != targets[i];
    assert last == k;
  }

  // ------------------------------------------------------------------ environment

  /** A synchronous step: how long it takes and whether it throws. */
  datatype Step = Step(ms: nat, ok: bool)

  datatype Thrown = RequestDeadlineThrown | StageDeadlineThrown | SearchThrown(code: Text, retriable: bool) | OtherThrown

  datatype Answer<+C> = Items(items: seq<Item<C>>) | Threw(thrown: Thrown)

  /** How and when the search ends, when the caller gives up if ever, and how late
      the timer of the search's signal fires. */
  datatype Search<+C> = Search(answer: Answer<C>, at: Happening, abort: Option<Happening>, timer: Happening)

  /** Why the search's signal is aborted by the time the search ends. */
  function SearchReason<C>(aborted: bool, allowance: int, search: Search<C>): Option<Reason> {
    SignalReason(aborted, allowance, search.timer, search.abort, search.at)
  }

  /** Whether the caller has gone when the search ends. */
  predicate SearchAbandoned<C>(aborted: bool, search: Search<C>) {
    aborted || (search.abort.Some? && Sooner(search.abort.value, search.at))
  }

  /** Everything the run does not decide itself, in the order it happens. */
  datatype Environment<+C> = Environment(
    narrow: Step,
    prefixMs: nat,
    selection: Wait<seq<Text>>,
    record: Step,
    appendMs: nat,
    append: Wait<()>,
    recorded: Step,
    fit: Step,
    search: Search<C>,
    assemble: Step)

  datatype Stage = SelectionStage | AuditStage

  datatype Ending<+C> =
    | Answered(outcomes: seq<Managed<C>>)
    | RequestDeadline
    | StageDeadline(stage: Stage)
    | OtherError

  /** What the run has done so far. */
  datatype Effect = Planned | Audited | Searched(allowance: int) | Assembled

  datatype Run<+C> = Run(now: int, aborted: bool, effects: seq<Effect>, ending: Ending<C>)

  /** A part of the run: over, or ready for the next part with what it produced. */
  datatype Part<+T, +C> = Over(run: Run<C>) | Ready(now: int, aborted: bool, effects: seq<Effect>, value: T)

  // ---------------------------------------------------------------------- the run

  /** A race that was not won ends the run. */
  function Lost<T, C>(now: int, aborted: bool, effects: seq<Effect>, outcome: Outcome<T>, stage: Stage): Run<C>
    requires !outcome.Resolved?
  {
    Run(now, aborted, effects,
        match outcome
        case Rejected => OtherError
        case RequestDeadlineExceeded => RequestDeadline
        case StageDeadlineExceeded => StageDeadline(stage))
  }

  /** The allowance is read before the selection's synchronous prefix runs. */
  function Select<C>(r: Request, now: int, aborted: bool, env: Environment<C>): Part<seq<Text>, C> {
    var narrowed := now + env.narrow.ms;
    if !env.narrow.ok then Over(Run(narrowed, aborted, [], OtherError))
    else
      var limit := SelectionAllowance(r, narrowed);
      var outcome := RaceOutcome(aborted, limit, env.selection);
      var after := narrowed + env.prefixMs + RaceMs(aborted, limit, env.selection);
      var gone := Abandoned(aborted, limit, env.selection);
      if outcome.Resolved? then Ready(after, gone, [Planned], outcome.value)
      else Over(Lost(after, gone, [], outcome, SelectionStage))
  }

  /** What is thrown when nothing is workable. */
  function Unworkable<C>(now: int, aborted: bool, effects: seq<Effect>): Run<C> {
    Run(now, aborted, effects, if aborted then RequestDeadline else StageDeadline(AuditStage))
  }

  predicate CanWork(r: Request, now: int, aborted: bool) {
    !aborted && Workable(r, now) > 0
  }

  /** Appends the audit record and checks that there is still work to be done. */
  function Audit<C>(r: Request, now: int, aborted: bool, effects: seq<Effect>, env: Environment<C>): Part<(), C> {
    var recorded := now + env.record.ms;
    if !CanWork(r, now, aborted) then Over(Unworkable(now, aborted, effects))
    else if !env.record.ok then Over(Run(recorded, aborted, effects, OtherError))
    else if !CanWork(r, recorded, aborted) then Over(Unworkable(recorded, aborted, effects))
    else
      var limit := Workable(r, recorded);
      var outcome := RaceOutcome(aborted, limit, env.append);
      var after := recorded + env.appendMs + RaceMs(aborted, limit, env.append);
      var gone := Abandoned(aborted, limit, env.append);
      if !outcome.Resolved? then Over(Lost(after, gone, effects, outcome, AuditStage))
      else if !CanWork(r, after, gone) then Over(Unworkable(after, gone, effects + [Audited]))
      else Ready(after, gone, effects + [Audited], ())
  }

  /** Announces the record and refuses a plan that cannot fit. */
  function Announce<C>(now: int, aborted: bool, effects: seq<Effect>, env: Environment<C>): Part<(), C> {
    var told := now + env.recorded.ms;
    if !env.recorded.ok then Over(Run(told, aborted, effects, OtherError))
    else if !env.fit.ok then Over(Run(told + env.fit.ms, aborted, effects, OtherError))
    else Ready(told + env.fit.ms, aborted, effects, ())
  }

  /** How a whole-batch throw reads as a failure of every target. */
  function BatchFault(thrown: Thrown, reason: Option<Reason>): Fault {
    if reason == Some(StageReason) || thrown.StageDeadlineThrown? then Fault(true, DeadlineExceeded, true)
    else if thrown.SearchThrown? then Fault(false, SearchCode(thrown.code), thrown.retriable)
    else Fault(false, UnexpectedFailure, false)
  }

  function FailAll<C>(targets: seq<Text>, fault: Fault): seq<Managed<C>> {
    seq(|targets|, i requires 0 <= i < |targets| => ManagedFailed(targets[i], fault))
  }

  /** No search at all without a target. */
  function Execute<C>(r: Request, now: int, aborted: bool, effects: seq<Effect>, targets: seq<Text>, env: Environment<C>)
    : Part<seq<Managed<C>>, C>
  {
    if targets == [] then Ready(now, aborted, effects, [])
    else
      var allowance := SearchAllowance(r, now);
      var searched := effects + [Searched(allowance)];
      var after := now + env.search.at.ms;
      var gone := SearchAbandoned(aborted, env.search);
      var reason := SearchReason(aborted, allowance, env.search);
      match env.search.answer
      case Items(items) => Ready(after, gone, searched, ProjectAll(items, targets))
      case Threw(thrown) =>
        if reason == Some(RequestReason) || thrown.RequestDeadlineThrown? then
          Over(Run(after, gone, searched, RequestDeadline))
        else Ready(after, gone, searched, FailAll(targets, BatchFault(thrown, reason)))
  }

  /** Everything before assembly. */
  function Prepare<C>(r: Request, now: int, aborted: bool, env: Environment<C>): Part<seq<Managed<C>>, C> {
    match Select(r, now, aborted, env)
    case Over(run) => Over(run)
    case Ready(selected, gone, effects, targets) =>
      match Audit(r, selected, gone, effects, env)
      case Over(run) => Over(run)
      case Ready(audited, gone', effects', _) =>
        match Announce(audited, gone', effects', env)
        case Over(run) => Over(run)
        case Ready(announced, gone'', effects'', _) => Execute(r, announced, gone'', effects'', targets, env)
  }

  /** Checked before and again after, and no answer leaves late. */
  function Assemble<C>(r: Request, now: int, aborted: bool, effects: seq<Effect>, outcomes: seq<Managed<C>>, assemble: Step)
    : Run<C>
  {
    var done := now + assemble.ms;
    if aborted || Remaining(r, now) == 0 then Run(now, aborted, effects, RequestDeadline)
    else if !assemble.ok then Run(done, aborted, effects, OtherError)
    else if Remaining(r, done) == 0 then Run(done, aborted, effects + [Assembled], RequestDeadline)
    else Run(done, aborted, effects + [Assembled], Answered(outcomes))
  }

  function Resolve<C>(r: Request, now: int, aborted: bool, env: Environment<C>): Run<C> {
    match Prepare(r, now, aborted, env)
    case Over(run) => run
    case Ready(ready, gone, effects, outcomes) => Assemble(r, ready, gone, effects, outcomes, env.assemble)
  }

  // ----------------------------------------------------------------- the promises

  /** Once the audit is through, the reserve is untouched and some work is left. */
  lemma AuditLeavesReserve<C>(r: Request, now: int, aborted: bool, effects: seq<Effect>, env: Environment<C>)
    requires Problem(r.profile).None? && now >= r.startedAt
    ensures var part := Audit(r, now, aborted, effects, env);
            part.Ready? ==>
              && !part.aborted
              && part.now >= now
              && Remaining(r, part.now) > r.profile.assemblyReserveMs
              && part.effects == effects + [Audited]
  {
  }

  /** How long the search outlasts its signal. */
  function Overrun<C>(r: Request, now: int, search: Search<C>): int {
    AtLeastZero(search.at.ms - AtLeastZero(SearchAllowance(r, now)))
  }

  /** The search takes at most the time its signal allows, whenever it starts. */
  ghost predicate Respects<C>(r: Request, search: Search<C>, from: int) {
    Overrun(r, from, search) == 0
  }

  /** The instant the search would start. */
  function SearchStart<C>(r: Request, now: int, aborted: bool, env: Environment<C>): Option<int> {
    var select := Select(r, now, aborted, env);
    if select.Over? then None
    else
      var audit := Audit(r, select.now, select.aborted, select.effects, env);
      if audit.Over? then None else Some(audit.now + env.recorded.ms + env.fit.ms)
  }

  lemma ExecuteSpares<C>(r: Request, now: int, aborted: bool, effects: seq<Effect>, targets: seq<Text>,
                         env: Environment<C>, spent: nat)
    requires Problem(r.profile).None? && now >= r.startedAt
    requires Remaining(r, now) > r.profile.assemblyReserveMs - spent
    ensures var part := Execute(r, now, aborted, effects, targets, env);
            part.Ready? ==>
              Remaining(r, part.now) >= r.profile.assemblyReserveMs - spent - Overrun(r, now, env.search)
  {
  }

  lemma SelectTakesTime<C>(r: Request, now: int, aborted: bool, env: Environment<C>)
    requires now >= r.startedAt
    ensures var part := Select(r, now, aborted, env); part.Ready? ==> part.now >= now
  {
  }

  /**
   Assembly starts with the whole reserve, less only what synchronous steps spent
   between the last check and the search, and what the search overran its signal by.
   */
  lemma ReserveAtAssembly<C>(r: Request, now: int, aborted: bool, env: Environment<C>)
    requires Problem(r.profile).None? && now >= r.startedAt
    ensures var ready := Prepare(r, now, aborted, env);
            ready.Ready? ==>
              && SearchStart(r, now, aborted, env).Some?
              && Remaining(r, ready.now) >= r.profile.assemblyReserveMs - env.recorded.ms - env.fit.ms
                                           - Overrun(r, SearchStart(r, now, aborted, env).value, env.search)
  {
    hide Select, Audit, Execute, Overrun, Problem;
    SelectTakesTime(r, now, aborted, env);
    var select := Select(r, now, aborted, env);
    if select.Ready? {
      AuditLeavesReserve(r, select.now, select.aborted, select.effects, env);
      var audit := Audit(r, select.now, select.aborted, select.effects, env);
      if audit.Ready? {
        ExecuteSpares(r, audit.now + env.recorded.ms + env.fit.ms, audit.aborted, audit.effects, select.value, env,
                      env.recorded.ms + env.fit.ms);
      }
    }
  }

  /** Only the stages spend time, and the search returns in time. */
  ghost predicate StagesOnly<C>(r: Request, now: int, aborted: bool, env: Environment<C>) {
    && env.recorded.ms == 0 && env.fit.ms == 0
    && (SearchStart(r, now, aborted, env).Some? ==> Respects(r, env.search, SearchStart(r, now, aborted, env).value))
  }

  /** Then assembly starts with the full reserve, and its first check can refuse
      only a caller who gave up. */
  lemma AssemblyHasReserve<C>(r: Request, now: int, aborted: bool, env: Environment<C>)
    requires Problem(r.profile).None? && now >= r.startedAt && StagesOnly(r, now, aborted, env)
    ensures var ready := Prepare(r, now, aborted, env);
            ready.Ready? ==>
              && Remaining(r, ready.now) >= r.profile.assemblyReserveMs
              && ((ready.aborted || Remaining(r, ready.now) == 0) <==> ready.aborted)
  {
    hide Prepare;
    ReserveAtAssembly(r, now, aborted, env);
  }

  /** And an assembly shorter than the reserve always answers, unless it throws or
      the caller gave up. */
  lemma ShortAssemblyAnswers<C>(r: Request, now: int, aborted: bool, env: Environment<C>)
    requires Problem(r.profile).None? && now >= r.startedAt && StagesOnly(r, now, aborted, env)
    requires Prepare(r, now, aborted, env).Ready?
    requires env.assemble.ms < r.profile.assemblyReserveMs
    ensures var ready := Prepare(r, now, aborted, env);
            Resolve(r, now, aborted, env).ending.Answered? <==> env.assemble.ok && !ready.aborted
  {
    hide Prepare;
    AssemblyHasReserve(r, now, aborted, env);
  }

  /** No answer is late, whatever the stages did: every answered run ends before its
      deadline, for a caller who is still there. */
  lemma NoLateAnswer<C>(r: Request, now: int, aborted: bool, env: Environment<C>)
    requires now >= r.startedAt
    ensures var run := Resolve(r, now, aborted, env);
            run.ending.Answered? ==>
              && Remaining(r, run.now) > 0
              && run.now < r.startedAt + r.profile.totalMs
              && !run.aborted
  {
    hide Prepare;
    TimeAdvances(r, now, aborted, env);
  }

  lemma TimeAdvances<C>(r: Request, now: int, aborted: bool, env: Environment<C>)
    ensures Prepare(r, now, aborted, env).Ready? ==> Prepare(r, now, aborted, env).now >= now
    ensures Prepare(r, now, aborted, env).Over? ==> !Prepare(r, now, aborted, env).run.ending.Answered?
  {
  }

  // ------------------------------------------------------------ when a run answers

  function Deadline(r: Request): int {
    r.startedAt + r.profile.totalMs
  }

  /** From here on the time is assembly's. */
  function WorkEnds(r: Request): int {
    Deadline(r) - r.profile.assemblyReserveMs
  }

  /** The work brings a value before its timer fires and its caller gives up. */
  predicate Won<T>(limit: int, wait: Wait<T>) {
    && limit > 0
    && wait.work.Some? && wait.work.value.value.Some?
    && !Sooner(TimerAt(limit, wait.timer), wait.work.value.at)
    && (wait.abort.None? || !Sooner(wait.abort.value, wait.work.value.at))
  }

  lemma WonIff<T>(aborted: bool, limit: int, wait: Wait<T>)
    ensures RaceOutcome(aborted, limit, wait).Resolved? <==> !aborted && Won(limit, wait)
    ensures !aborted && Won(limit, wait) ==>
              && RaceOutcome(aborted, limit, wait) == Resolved(wait.work.value.value.value)
              && RaceMs(aborted, limit, wait) == wait.work.value.at.ms
              && !Abandoned(aborted, limit, wait)
  {
  }

  /** The search ends before its caller gives up, and not with the request's deadline. */
  predicate SearchReturns<C>(search: Search<C>) {
    && (search.abort.None? || !Sooner(search.abort.value, search.at))
    && !(search.answer.Threw? && search.answer.thrown.RequestDeadlineThrown?)
  }

  function PlannedAt<C>(now: int, env: Environment<C>): int
    requires env.selection.work.Some?
  {
    now + env.narrow.ms + env.prefixMs + env.selection.work.value.at.ms
  }

  /** Selection is won within its allowance. */
  predicate Plans<C>(r: Request, now: int, env: Environment<C>) {
    && env.narrow.ok
    && Won(Smaller(r.profile.selectionMs, WorkEnds(r) - (now + env.narrow.ms)), env.selection)
  }

  lemma PlansIff<C>(r: Request, now: int, aborted: bool, env: Environment<C>)
    requires Problem(r.profile).None? && now >= r.startedAt
    ensures Select(r, now, aborted, env).Ready? <==> !aborted && Plans(r, now, env)
    ensures !aborted && Plans(r, now, env) ==>
              Select(r, now, aborted, env) == Ready(PlannedAt(now, env), false, [Planned], env.selection.work.value.value.value)
    ensures Select(r, now, aborted, env).Over? ==> !Select(r, now, aborted, env).run.ending.Answered?
  {
    var narrowed := now + env.narrow.ms;
    WonIff(aborted, SelectionAllowance(r, narrowed), env.selection);
    hide RaceOutcome, RaceMs, Abandoned;
  }

  function AuditedAt<C>(planned: int, env: Environment<C>): int
    requires env.append.work.Some?
  {
    planned + env.record.ms + env.appendMs + env.append.work.value.at.ms
  }

  /** The audit record is appended while there is still work to be done. */
  predicate Audits<C>(r: Request, planned: int, env: Environment<C>) {
    && planned < WorkEnds(r) && env.record.ok && planned + env.record.ms < WorkEnds(r)
    && Won(WorkEnds(r) - (planned + env.record.ms), env.append)
    && AuditedAt(planned, env) < WorkEnds(r)
  }

  lemma AuditsIff<C>(r: Request, planned: int, effects: seq<Effect>, env: Environment<C>)
    requires Problem(r.profile).None? && planned >= r.startedAt
    ensures Audit(r, planned, false, effects, env).Ready? <==> Audits(r, planned, env)
    ensures Audits(r, planned, env) ==>
              Audit(r, planned, false, effects, env) == Ready(AuditedAt(planned, env), false, effects + [Audited], ())
    ensures Audit(r, planned, false, effects, env).Over? ==> !Audit(r, planned, false, effects, env).run.ending.Answered?
  {
    WonIff(false, WorkEnds(r) - (planned + env.record.ms), env.append);
    hide RaceOutcome, RaceMs, Abandoned;
  }

  /** When assembly would begin. */
  function ReadyAt<C>(audited: int, targets: seq<Text>, env: Environment<C>): int {
    audited + env.recorded.ms + env.fit.ms + if targets == [] then 0 else env.search.at.ms
  }

  /** What is answered for the targets. */
  function OutcomesOf<C>(r: Request, start: int, targets: seq<Text>, search: Search<C>): seq<Managed<C>> {
    if targets == [] then []
    else
      match search.answer
      case Items(items) => ProjectAll(items, targets)
      case Threw(thrown) => FailAll(targets, BatchFault(thrown, SearchReason(false, SearchAllowance(r, start), search)))
  }

  lemma ExecutesIff<C>(r: Request, start: int, effects: seq<Effect>, targets: seq<Text>, env: Environment<C>)
    ensures var part := Execute(r, start, false, effects, targets, env);
            var after := if targets == [] then start else start + env.search.at.ms;
            && (part.Ready? && !part.aborted <==> targets == [] || SearchReturns(env.search))
            && (part.Ready? ==> part.now == after && part.value == OutcomesOf(r, start, targets, env.search))
            && (part.Over? ==> !part.run.ending.Answered?)
  {
    hide ProjectAll, FailAll, BatchFault, SearchAllowance;
  }

  /** Everything between the audit and assembly goes well. */
  predicate Searches<C>(targets: seq<Text>, env: Environment<C>) {
    env.recorded.ok && env.fit.ok && (targets == [] || SearchReturns(env.search))
  }

  lemma AnnouncedExecutes<C>(r: Request, audited: int, effects: seq<Effect>, targets: seq<Text>, env: Environment<C>)
    ensures var part := match Announce(audited, false, effects, env)
                        case Over(run) => Over(run)
                        case Ready(now, gone, told, _) => Execute(r, now, gone, told, targets, env);
            && (part.Ready? && !part.aborted <==> Searches(targets, env))
            && (part.Ready? ==>
                  && part.now == ReadyAt(audited, targets, env)
                  && part.value == OutcomesOf(r, audited + env.recorded.ms + env.fit.ms, targets, env.search))
            && (part.Over? ==> !part.run.ending.Answered?)
  {
    ExecutesIff(r, audited + env.recorded.ms + env.fit.ms, effects, targets, env);
    hide Execute, OutcomesOf, SearchReturns;
  }

  /** Everything before assembly goes well. */
  predicate Prepares<C>(r: Request, now: int, env: Environment<C>) {
    && Plans(r, now, env)
    && Audits(r, PlannedAt(now, env), env)
    && Searches(env.selection.work.value.value.value, env)
  }

  lemma PreparesIff<C>(r: Request, now: int, aborted: bool, env: Environment<C>)
    requires Problem(r.profile).None? && now >= r.startedAt
    ensures var part := Prepare(r, now, aborted, env);
            && (part.Ready? && !part.aborted <==> !aborted && Prepares(r, now, env))
            && (part.Over? ==> !part.run.ending.Answered?)
    ensures !aborted && Prepares(r, now, env) ==>
              var targets, audited := env.selection.work.value.value.value, AuditedAt(PlannedAt(now, env), env);
              var part := Prepare(r, now, aborted, env);
              && part.now == ReadyAt(audited, targets, env)
              && part.value == OutcomesOf(r, audited + env.recorded.ms + env.fit.ms, targets, env.search)
  {
    PlansIff(r, now, aborted, env);
    hide Select, Audit, Announce, Execute, OutcomesOf, Searches, Problem, ReadyAt;
    if !aborted && Plans(r, now, env) {
      var planned := PlannedAt(now, env);
      AuditsIff(r, planned, [Planned], env);
      hide Plans, PlannedAt;
      if Audits(r, planned, env) {
        AnnouncedExecutes(r, AuditedAt(planned, env), [Planned] + [Audited], env.selection.work.value.value.value, env);
        hide Audits, AuditedAt;
      }
    }
  }

  /** A run answers if and only if nobody gives up, nothing throws, selection and audit
      are won and leave work to be done, and assembly is through before the deadline:
      a condition on the environment and the profile alone.  The answer is the
      projection of what the search reported, or one fault for every target. */
  lemma AnswersIff<C>(r: Request, now: int, aborted: bool, env: Environment<C>)
    requires Problem(r.profile).None? && now >= r.startedAt
    ensures Resolve(r, now, aborted, env).ending.Answered?
            <==> && !aborted && Prepares(r, now, env) && env.assemble.ok
                 && ReadyAt(AuditedAt(PlannedAt(now, env), env), env.selection.work.value.value.value, env) + env.assemble.ms
                    < Deadline(r)
    ensures Resolve(r, now, aborted, env).ending.Answered? ==>
              && Prepares(r, now, env)
              && var targets, audited := env.selection.work.value.value.value, AuditedAt(PlannedAt(now, env), env);
                 Resolve(r, now, aborted, env).ending.outcomes
                 == OutcomesOf(r, audited + env.recorded.ms + env.fit.ms, targets, env.search)
  {
    PreparesIff(r, now, aborted, env);
    TimeAdvances(r, now, aborted, env);
    hide Prepare, OutcomesOf, Audits, Searches, ReadyAt, AuditedAt, PlannedAt;
  }

  /** A search that fails as a whole fails every target, by the stage's deadline exactly
      when its signal ran out of time or that is what it threw. */
  lemma BatchFails<C>(r: Request, start: int, targets: seq<Text>, search: Search<C>, i: nat)
    requires search.answer.Threw? && i < |targets|
    ensures var outcomes := OutcomesOf(r, start, targets, search);
            && |outcomes| == |targets|
            && outcomes[i].ManagedFailed? && outcomes[i].key == targets[i]
            && (outcomes[i].fault.deadline <==>
                  search.answer.thrown.StageDeadlineThrown?
                  || SearchReason(false, SearchAllowance(r, start), search) == Some(StageReason))
            && (search.answer.thrown.SearchThrown? && !outcomes[i].fault.deadline ==>
                  outcomes[i].fault.code == SearchCode(search.answer.thrown.code)
                  && outcomes[i].fault.retriable == search.answer.thrown.retriable)
  {
  }

  /** The order of effects: nothing is searched before the plan and its audit record
      exist, and nothing is assembled before that. */
  lemma EffectsInOrder<C>(r: Request, now: int, aborted: bool, env: Environment<C>)
    ensures var effects := Resolve(r, now, aborted, env).effects;
            && (forall i :: 0 <= i < |effects| && effects[i].Searched? ==>
                  i == 2 && effects[0] == Planned && effects[1] == Audited)
            && (forall i :: 0 <= i < |effects| && effects[i].Assembled? ==>
                  i >= 2 && i == |effects| - 1 && effects[0] == Planned && effects[1] == Audited)
            && (Resolve(r, now, aborted, env).ending.Answered? ==> |effects| >= 3 && effects[|effects| - 1] == Assembled)
  {
    PrepareEffects(r, now, aborted, env);
    hide Prepare;
  }

  /** Planned and audited, and then perhaps searched. */
  predicate Authorised(effects: seq<Effect>) {
    && 2 <= |effects| <= 3
    && effects[0] == Planned && effects[1] == Audited
    && (|effects| == 3 ==> effects[2].Searched?)
  }

  lemma PrepareEffects<C>(r: Request, now: int, aborted: bool, env: Environment<C>)
    ensures var part := Prepare(r, now, aborted, env);
            && (part.Over? ==> part.run.effects in {[], [Planned]} || Authorised(part.run.effects))
            && (part.Over? ==> !part.run.ending.Answered?)
            && (part.Ready? ==> Authorised(part.effects))
  {
    assert [Planned] + [Audited] == [Planned, Audited];
  }

  /** The search is allowed its ceiling or what is workable, whichever is less, and
      nothing at all only when what is workable went between the check and here. */
  lemma SearchAllowanceIs<C>(r: Request, now: int, aborted: bool, env: Environment<C>, a: int)
    requires Problem(r.profile).None? && now >= r.startedAt
    requires Searched(a) in Resolve(r, now, aborted, env).effects
    ensures SearchStart(r, now, aborted, env).Some?
    ensures var start := SearchStart(r, now, aborted, env).value;
            && a == SearchAllowance(r, start)
            && 0 <= a <= r.profile.managedSearchCeilingMs
            && (env.recorded.ms == 0 && env.fit.ms == 0 ==> a > 0)
  {
    SearchedAt(r, now, aborted, env, a);
    var select := Select(r, now, aborted, env);
    if select.Ready? {
      AuditLeavesReserve(r, select.now, select.aborted, select.effects, env);
    }
    hide Resolve, Audit, Select;
  }

  lemma SearchedAt<C>(r: Request, now: int, aborted: bool, env: Environment<C>, a: int)
    requires Searched(a) in Resolve(r, now, aborted, env).effects
    ensures SearchStart(r, now, aborted, env).Some?
    ensures a == SearchAllowance(r, SearchStart(r, now, aborted, env).value)
  {
    hide SearchAllowance, Workable, SelectionAllowance;
  }

  /** The caller never gives up while a stage is waited for. */
  predicate CallerStays<C>(env: Environment<C>) {
    env.selection.abort.None? && env.append.abort.None? && env.search.abort.None?
  }

  /** The search throws the request's deadline only as its signal's reason: nothing
      but a request's own signals make that error. */
  ghost predicate ThrowsItsReason<C>(r: Request, now: int, aborted: bool, env: Environment<C>) {
    var start := SearchStart(r, now, aborted, env);
    start.Some? && env.search.answer == Threw(RequestDeadlineThrown) ==>
      SearchReason(false, SearchAllowance(r, start.value), env.search) == Some(RequestReason)
  }

  /** For a caller who stays, the request's deadline is met unless assembly takes as
      long as the reserve. */
  lemma RequestDeadlineMeansSlowAssembly<C>(r: Request, now: int, env: Environment<C>)
    requires Problem(r.profile).None? && now >= r.startedAt && StagesOnly(r, now, false, env)
    requires CallerStays(env) && ThrowsItsReason(r, now, false, env)
    requires Resolve(r, now, false, env).ending.RequestDeadline?
    ensures env.assemble.ms >= r.profile.assemblyReserveMs
  {
    PrepareKeepsCaller(r, now, env);
    hide Prepare;
    AssemblyHasReserve(r, now, false, env);
  }

  lemma SelectKeepsCaller<C>(r: Request, now: int, env: Environment<C>)
    requires CallerStays(env)
    ensures var part := Select(r, now, false, env);
            && (part.Ready? ==> !part.aborted)
            && (part.Over? ==> !part.run.ending.RequestDeadline?)
  {
  }

  lemma AuditKeepsCaller<C>(r: Request, now: int, effects: seq<Effect>, env: Environment<C>)
    requires CallerStays(env)
    ensures var part := Audit(r, now, false, effects, env);
            && (part.Ready? ==> !part.aborted)
            && (part.Over? ==> !part.run.ending.RequestDeadline?)
  {
  }

  lemma PrepareKeepsCaller<C>(r: Request, now: int, env: Environment<C>)
    requires CallerStays(env) && ThrowsItsReason(r, now, false, env)
    ensures var part := Prepare(r, now, false, env);
            && (part.Ready? ==> !part.aborted)
            && (part.Over? ==> !part.run.ending.RequestDeadline?)
  {
    SelectKeepsCaller(r, now, env);
    var select := Select(r, now, false, env);
    if select.Ready? {
      AuditKeepsCaller(r, select.now, select.effects, env);
      hide Select, Audit, SearchAllowance;
    }
  }

  // ------------------------------------------------------------------ step by step

  /** What a budget is left as: nothing more armed than before. */
  twostate predicate NothingArmed(budget: RequestBudget)
    reads budget
  {
    budget.Valid() && budget.timers == old(budget.timers) && budget.listeners == old(budget.listeners)
  }

  method SelectWithin<C>(budget: RequestBudget, env: Environment<C>) returns (part: Part<seq<Text>, C>)
    requires budget.Valid()
    modifies budget
    ensures NothingArmed(budget)
    ensures part == Select(budget.request, old(budget.now), old(budget.aborted), env)
    ensures part.Ready? ==> budget.now == part.now && budget.aborted == part.aborted
    ensures part.Over? ==> budget.now == part.run.now && budget.aborted == part.run.aborted
  {
    budget.Spend(env.narrow.ms);
    if !env.narrow.ok {
      return Over(Run(budget.now, budget.aborted, [], OtherError));
    }
    var limit := SelectionAllowance(budget.request, budget.now);
    budget.Spend(env.prefixMs);
    var outcome := budget.RaceStage(limit, env.selection);
    if outcome.Resolved? {
      part := Ready(budget.now, budget.aborted, [Planned], outcome.value);
    } else {
      part := Over(Lost(budget.now, budget.aborted, [], outcome, SelectionStage));
    }
  }

  method AuditWithin<C>(budget: RequestBudget, effects: seq<Effect>, env: Environment<C>) returns (part: Part<(), C>)
    requires budget.Valid()
    modifies budget
    ensures NothingArmed(budget)
    ensures part == Audit(budget.request, old(budget.now), old(budget.aborted), effects, env)
    ensures part.Ready? ==> budget.now == part.now && budget.aborted == part.aborted
    ensures part.Over? ==> budget.now == part.run.now && budget.aborted == part.run.aborted
  {
    hide RaceOutcome, RaceMs, Abandoned, Remaining;
    var refusal := budget.AssertWorkable();
    if refusal.Some? {
      return Over(Unworkable(budget.now, budget.aborted, effects));
    }
    budget.Spend(env.record.ms);
    if !env.record.ok {
      return Over(Run(budget.now, budget.aborted, effects, OtherError));
    }
    refusal := budget.AssertWorkable();
    if refusal.Some? {
      return Over(Unworkable(budget.now, budget.aborted, effects));
    }
    var limit := Workable(budget.request, budget.now);
    budget.Spend(env.appendMs);
    var outcome := budget.RaceStage(limit, env.append);
    if !outcome.Resolved? {
      return Over(Lost(budget.now, budget.aborted, effects, outcome, AuditStage));
    }
    refusal := budget.AssertWorkable();
    if refusal.Some? {
      return Over(Unworkable(budget.now, budget.aborted, effects + [Audited]));
    }
    part := Ready(budget.now, budget.aborted, effects + [Audited], ());
  }

  /** The environment ends the search; the signal is disposed of either way. */
  method ExecuteManagedTargets<C>(budget: RequestBudget, effects: seq<Effect>, targets: seq<Text>, env: Environment<C>)
    returns (part: Part<seq<Managed<C>>, C>)
    requires budget.Valid()
    modifies budget
    ensures NothingArmed(budget)
    ensures part == Execute(budget.request, old(budget.now), old(budget.aborted), effects, targets, env)
    ensures part.Ready? ==> budget.now == part.now && budget.aborted == part.aborted
    ensures part.Over? ==> budget.now == part.run.now && budget.aborted == part.run.aborted
  {
    if targets == [] {
      return Ready(budget.now, budget.aborted, effects, []);
    }
    var allowance := SearchAllowance(budget.request, budget.now);
    var armed, reason := budget.StageSignal(allowance);
    var searched := effects + [Searched(allowance)];
    if reason.None? {
      reason := ReasonBy(budget.timers[armed.value] - budget.now, env.search.timer, env.search.abort, env.search.at);
    }
    budget.Spend(env.search.at.ms);
    budget.aborted := SearchAbandoned(budget.aborted, env.search);
    match env.search.answer {
      case Items(items) => part := Ready(budget.now, budget.aborted, searched, ProjectAll(items, targets));
      case Threw(thrown) =>
        if reason == Some(RequestReason) || thrown.RequestDeadlineThrown? {
          part := Over(Run(budget.now, budget.aborted, searched, RequestDeadline));
        } else {
          part := Ready(budget.now, budget.aborted, searched, FailAll(targets, BatchFault(thrown, reason)));
        }
    }
    budget.Dispose(armed);
    assert budget.timers == old(budget.timers) && budget.listeners == old(budget.listeners);
  }

  /** Runs the stages in order.  However the run ends, no timer and no listener of
      any stage is left behind. */
  method ResolveWithin<C>(budget: RequestBudget, env: Environment<C>) returns (run: Run<C>)
    requires budget.Valid()
    modifies budget
    ensures NothingArmed(budget)
    ensures run == Resolve(budget.request, old(budget.now), old(budget.aborted), env)
    ensures budget.now == run.now && budget.aborted == run.aborted
  {
    hide Select, Audit, Execute;
    var select := SelectWithin(budget, env);
    if select.Over? {
      return select.run;
    }
    var audit := AuditWithin(budget, select.effects, env);
    if audit.Over? {
      return audit.run;
    }
    budget.Spend(env.recorded.ms);
    if !env.recorded.ok {
      return Run(budget.now, budget.aborted, audit.effects, OtherError);
    }
    budget.Spend(env.fit.ms);
    if !env.fit.ok {
      return Run(budget.now, budget.aborted, audit.effects, OtherError);
    }
    var ready := ExecuteManagedTargets(budget, audit.effects, select.value, env);
    if ready.Over? {
      return ready.run;
    }
    var refused := budget.AssertCanAssemble();
    if refused {
      return Run(budget.now, budget.aborted, ready.effects, RequestDeadline);
    }
    budget.Spend(env.assemble.ms);
    if !env.assemble.ok {
      return Run(budget.now, budget.aborted, ready.effects, OtherError);
    }
    refused := budget.AssertCanAssemble();
    if refused {
      return Run(budget.now, budget.aborted, ready.effects + [Assembled], RequestDeadline);
    }
    run := Run(budget.now, budget.aborted, ready.effects + [Assembled], Answered(ready.value));
  }
}
