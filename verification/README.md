# contextctl, verified

A Dafny model of the parts of contextctl where correctness depends on more than
one function at a time, with proofs of what those parts promise:

- **the shared-session scheduler**: two bounded queues, a concurrency limit,
  request-wide reservations, one cancellable promotion timer and an event-loop
  sampler (`SchedulerModel`, `SchedulerInvariant`, `SchedulerSafety`,
  `SchedulerTiming`, `SchedulerProgress`, `EmbeddingRuntimeScheduler`);
- **the daemon runtime**: bounded FIFO lanes (`LaneModel`, `AdmissionLane`, over the
  history kept by `Submissions`), the manual clock (`ManualClock`), request budgets
  and the staged run over them (`RequestBudget`, `ContextApplication`), the
  maintenance worker and the shutdown that silences it (`WorkerModel`,
  `MaintenanceWorker`, `LifecycleModel`, `LifecycleSafety`, `DaemonLifecycle`);
- **the deferred evidence cover**: candidate cut, greedy weighted cover, domination
  filter and disposition (`CandidateCut`, `CoverModel`, `CoverOrder`, `CoverGreedy`,
  `CoverLoops`);
- **the restore**: snapshots into an uncooperative server, and the rename that
  commits the whole state (`SnapshotRestore`, `StateBackup`);
- **canonical text and ranking arithmetic**: `CanonicalJson`, `ContractValidation`,
  `RankingMetrics`, `HybridIndex`, `HybridRetrieval`.

`Wrappers`, `Texts`, `Orders`, `Scores` and `RealFacts` hold shared definitions.
`dafny verify dfyconfig.toml` checks everything.

## How it is modelled

One run-to-completion block of the program (a submission, a settled operation, a
fired signal, a timer callback, a scope entered or left, a stop) is one step.  Each
stateful object appears twice: as a value with a step function, about which the
lemmas speak, and as a class whose methods update fields in place and are proved to
compute those functions.  Loops over arrays and maps in the program are methods with
loops; expressions are functions.

What the program calls but does not define is a parameter, with only these facts
used: the similarity of two words lies in [0, 1]; a logarithm is positive above 1,
and rises where scores of different frequencies are compared; different numbers
print as different number tokens, the numbers of canonical text standing as integer
codes (`DecimalValid` gives such a printer); a discount is positive and falls
strictly.  Texts are sequences of UTF-16 code units.  Scores and
clock readings of the scheduler and the manual clock are exact reals, budgets are
whole milliseconds.

The server of the restore is a set of names and an oracle of replies.  A reply may
deny a request that took effect, and an upload may land only after the restore has
returned.  Two assumptions are made about it: an answered probe tells the truth, and
an acknowledged delete has removed the collection.

## Where a promise holds only under a condition

- `canonicalContractJson` prints undefined as null inside arrays and at the top.  So
  it is injective up to member order and undefined members exactly on values where
  undefined stands only in members (`CanonicalTextInjective`, `UntidyValuesCollide`).
- The quiet period after a Resolve operation is kept in every run without further
  Resolve work when no scope is held, when it is no longer than the yield, or when
  some waiting background work cannot be cancelled, and otherwise not
  (`QuietKeptIff`): a scope that ends with nothing waiting leaves no timer, and work
  submitted after that waits only for the yield.  The default profile has a quiet
  period of 50 and a yield of 1 (`embedding-runtime-scheduler.ts:57-61`).
- A failed restore is undone for good exactly when the preflight stops it or no
  upload it gets to lands after its probe (`RestoreAtomicOnceSettled`); so always
  on a server that is never late (`PromptServerRestoresForGood`).
  `LateUploadSurvives` is an input where it is not; the comment at
  `qdrant-snapshot-archive.ts:139-144` covers uploads that landed before the probe.
- `advance` composes for a negative first amount too.  For a negative second one it
  composes exactly when the sum leaves nothing pending that the first move reaches
  (`AdvancesComposeIff`), which is a condition on the pending timers alone when their
  callbacks do nothing to the clock (`QuietAdvancesComposeIff`).
  `BackwardsAdvanceFires` is an input where it does not.
- nDCG is at most 1 under every discount exactly when the result has no more hits
  than the ideal counts (`NdcgWithinUnitIff`); a list longer than the cutoff or one
  with repeats may have more (`BeyondTheCutoff`, `DuplicatesOvercount`).  The present
  callers cut their lists to `topK` and pass `topK` as the cutoff (`baseline.ts:116`,
  `product.ts:223`, `deferred-evidence-cover-v11.ts:724`), so a longer list is an
  input that the signature of `ndcg` admits and they do not produce.
  What `retrieveHybrid` delivers has no repeats either (`DeliveredScoresWithinUnit`).
- A finished shutdown has released exactly what was registered before the event
  that began the release (`ReleasedInReverse`), so everything exactly when nothing is
  registered from that event on (`AllReleasedIff`), although the comment at
  `lifecycle.ts:49` speaks of every closeable.  `LateResourceStaysOpen` is a run in
  which a resource is left.
- A staging directory survives a failed `chmod`, which stands before the `try`
  (`StagingSurvives`; `StagingLeftIff` has every case).

## Model

| member | source | states |
|---|---|---|
| LaneModel.StepKeeps | apps/contextctl-daemon/src/runtime/admission.ts:127-257 | Every block of a lane (submission, settled task, fired signal, stop) keeps the state sound: queue, flags and slots agree with the history, capacity is respected, nothing waits while a slot is free, and a fate once final never changes |
| LaneModel.RunsKeep | apps/contextctl-daemon/src/runtime/admission.ts:89-257 | The same over every run, from any sound state |
| LaneModel.NoOvertaking | apps/contextctl-daemon/src/runtime/admission.ts:148-257 | In every run of a new lane tasks start in submission order, no started task was submitted after one that still waits, and waiting work in an accepting lane means that every slot is in use |
| LaneModel.AdmissionExactly | apps/contextctl-daemon/src/runtime/admission.ts:152-190 | What a submission learns at once, each answer with its exact condition: refused iff slots and queue are exactly full, closed iff stopped, cancelled iff its signal had fired, started only with nothing waiting |
| LaneModel.EndsExactly | apps/contextctl-daemon/src/runtime/admission.ts:127-135 | A fired signal cancels exactly the submissions that wait under it, a stop closes exactly those that wait, and no other fate changes |
| LaneModel.Conservation | apps/contextctl-daemon/src/runtime/admission.ts:127-257 | Every submission is refused, closed, cancelled, waiting, running or finished, in exactly one of these, and the numbers add up to all submissions; starts are running plus finished |
| LaneModel.StoppedForever | apps/contextctl-daemon/src/runtime/admission.ts:116-135 | After a stop, over every further run: nothing starts, the queue stays empty, running tasks only go down, and an idle lane stays idle |
| LaneModel.DrainOneKeeps | apps/contextctl-daemon/src/runtime/admission.ts:245-257 | Freeing one slot promotes at most the oldest waiting entry and restores that nothing waits while a slot is free |
| AdmissionLanes.AdmissionLane.constructor | apps/contextctl-daemon/src/runtime/admission.ts:96-99 | A new lane is the open state of its capacity |
| AdmissionLanes.AdmissionLane.IsIdle | apps/contextctl-daemon/src/runtime/admission.ts:116-118 | Idle exactly when nothing runs and nothing waits |
| AdmissionLanes.AdmissionLane.Submit | apps/contextctl-daemon/src/runtime/admission.ts:148-201 | Computes the submission step on the fields in place, and reports the fate the history records |
| AdmissionLanes.AdmissionLane.SettleTask | apps/contextctl-daemon/src/runtime/admission.ts:232-236 | Frees the slot and promotes, as the settle step of the model |
| AdmissionLanes.AdmissionLane.DrainOldest | apps/contextctl-daemon/src/runtime/admission.ts:245-257 | Skips settled entries and starts the oldest other one when there is room |
| AdmissionLanes.AdmissionLane.AbortSignal | apps/contextctl-daemon/src/runtime/admission.ts:171-188 | Calling the listeners of a fired signal one after another cancels exactly the entries waiting under it |
| AdmissionLanes.AdmissionLane.CancelQueued | apps/contextctl-daemon/src/runtime/admission.ts:171-177 | The listener of one entry settles it once, takes it out of the queue and records the cancellation |
| AdmissionLanes.AdmissionLane.RemoveQueued | apps/contextctl-daemon/src/runtime/admission.ts:203-208 | Removes the entry at its first index and leaves the queue alone when it is not there |
| AdmissionLanes.AdmissionLane.StopAccepting | apps/contextctl-daemon/src/runtime/admission.ts:127-135 | Empties the queue and closes every entry that was not settled, as the stop step of the model |
| AdmissionLanes.AdmissionLane.CloseAll | apps/contextctl-daemon/src/runtime/admission.ts:129-134 | Closing the taken entries one by one, skipping settled ones, closes them all |
| Submissions.CancelledByListeners | apps/contextctl-daemon/src/runtime/admission.ts:171-186 | Dispatching to the listeners of a signal in queue order leaves exactly the other entries, in order |
| Submissions.CloseEachIs | apps/contextctl-daemon/src/runtime/admission.ts:129-134 | Refusing taken entries one by one refuses each unsettled one once |
| Submissions.FatesPartition | apps/contextctl-daemon/src/runtime/admission.ts:148-257 | The eight fates partition the submissions |
| SchedulerInvariant.FillKeeps | apps/contextctl-daemon/src/runtime/embedding-runtime-scheduler.ts:382-408 | The drain loop starts Resolve entries first and background entries only when nothing holds them, and stops only with every slot in use or nothing startable |
| SchedulerInvariant.RunKeeps | apps/contextctl-daemon/src/runtime/embedding-runtime-scheduler.ts:269-335 | A submission keeps the scheduler sound on each of its paths: started, queued, refused, cancelled or closed |
| SchedulerInvariant.SettledKeeps | apps/contextctl-daemon/src/runtime/embedding-runtime-scheduler.ts:355-380 | A settling operation and the drain after it keep the scheduler sound |
| SchedulerInvariant.AbortedKeeps | apps/contextctl-daemon/src/runtime/embedding-runtime-scheduler.ts:299-320 | A signal fired while entries wait keeps it sound and strands nothing |
| SchedulerInvariant.StoppedKeeps | apps/contextctl-daemon/src/runtime/embedding-runtime-scheduler.ts:251-267 | A stop keeps it sound, with both queues empty and every timer disarmed |
| SchedulerInvariant.StepKeeps | apps/contextctl-daemon/src/runtime/embedding-runtime-scheduler.ts:245-454 | Every step keeps the whole invariant, including that waiting background work has a future drain |
| SchedulerInvariant.RunsKeep | apps/contextctl-daemon/src/runtime/embedding-runtime-scheduler.ts:186-454 | The same over every run; fates only advance and the start order only grows |
| SchedulerSafety.NoLostWakeUp | apps/contextctl-daemon/src/runtime/embedding-runtime-scheduler.ts:269-454 | In every reachable state that accepts and has background work waiting, the promotion timer is armed, an operation runs, a reservation is held, or the lag suppression is on with the sampler armed |
| SchedulerSafety.BackgroundStartsGuarded | apps/contextctl-daemon/src/runtime/embedding-runtime-scheduler.ts:337-408 | A background operation starts only on a fired timer, while the scheduler accepts, no Resolve entry waits, no reservation is held, no promotion is pending and the lag is within the warning limit |
| SchedulerSafety.SettleStartsNoBackground | apps/contextctl-daemon/src/runtime/embedding-runtime-scheduler.ts:370-408 | A settling operation never starts background work in the same turn |
| SchedulerSafety.NoOvertaking | apps/contextctl-daemon/src/runtime/embedding-runtime-scheduler.ts:279-323 | From a new scheduler operations of one priority start in submission order, never past a waiting entry of that priority, active never exceeds the concurrency, and a waiting Resolve entry means every slot is in use |
| SchedulerSafety.AdmissionExactly | apps/contextctl-daemon/src/runtime/embedding-runtime-scheduler.ts:273-334 | Overload is reported exactly when the queue of that priority is full (for Resolve also every slot in use); a Resolve operation starts at once only with no Resolve entry waiting |
| SchedulerSafety.EndsExactly | apps/contextctl-daemon/src/runtime/embedding-runtime-scheduler.ts:251-320 | A fired signal cancels exactly the submissions that wait under it, a stop closes exactly those that wait, and no other fate changes |
| SchedulerSafety.Conservation | apps/contextctl-daemon/src/runtime/embedding-runtime-scheduler.ts:251-415 | Every submission is in exactly one place, the places add up, and starts are the operations running and completed |
| SchedulerSafety.StoppedForever | apps/contextctl-daemon/src/runtime/embedding-runtime-scheduler.ts:251-267 | After a stop, over every further run: queues empty, nothing armed, nothing starts, running operations only go down |
| SchedulerSafety.QuietWindow | apps/contextctl-daemon/src/runtime/embedding-runtime-scheduler.ts:337-349 | Background work queued when the last reservation ends cannot start before that instant plus the quiet period, unless a Resolve call or scope intervenes |
| SchedulerSafety.PromotionHolds | apps/contextctl-daemon/src/runtime/embedding-runtime-scheduler.ts:432-454 | While a promotion is pending and Resolve stays quiet, no background work starts before it is due |
| SchedulerTiming.SettleWindow | apps/contextctl-daemon/src/runtime/embedding-runtime-scheduler.ts:370-379 | After an operation settles with background work waiting behind no Resolve work, no background work starts before a pause is over: the quiet period after a Resolve operation, the yield after a background one, or the pause already running |
| SchedulerTiming.SettlePauseEnds | apps/contextctl-daemon/src/runtime/embedding-runtime-scheduler.ts:370-379 | From that instant on, and not before, the promotion timer may fire |
| SchedulerTiming.SubmitWindow | apps/contextctl-daemon/src/runtime/embedding-runtime-scheduler.ts:321-324 | After a background submission is queued no background work starts before the yield, or the pause already running, is over |
| SchedulerTiming.SubmitPauseEnds | apps/contextctl-daemon/src/runtime/embedding-runtime-scheduler.ts:321-324 | From that instant on, and not before, the promotion timer may fire |
| SchedulerTiming.ScopePauseEnds | apps/contextctl-daemon/src/runtime/embedding-runtime-scheduler.ts:342-347 | When the last scope ends with background work waiting, the promotion timer may fire from the end of the quiet period on, whatever was armed before |
| SchedulerTiming.QuietKeptIff | apps/contextctl-daemon/src/runtime/embedding-runtime-scheduler.ts:337-379 | The quiet period after a Resolve operation is kept in every run without further Resolve work if no scope is held, the quiet period is no longer than the yield, or some waiting work cannot be cancelled; and only then, unless the lag suppression holds the work anyway |
| SchedulerTiming.PromotionStartsIff | apps/contextctl-daemon/src/runtime/embedding-runtime-scheduler.ts:382-408 | A fired promotion starts background work if and only if some waits, a slot is free, no scope is held and no lag suppression is on |
| SchedulerTiming.SampleStartsIff | apps/contextctl-daemon/src/runtime/embedding-runtime-scheduler.ts:382-428 | A sample starts background work if and only if it comes in time, some waits, a slot is free, no scope is held and no promotion is pending |
| SchedulerTiming.LateSampleHolds | apps/contextctl-daemon/src/runtime/embedding-runtime-scheduler.ts:417-430 | A sample taken later than the warning limit holds background work back over every run up to the next one |
| SchedulerTiming.LateSampleSuppresses | apps/contextctl-daemon/src/runtime/embedding-runtime-scheduler.ts:417-430 | The suppression is on after a sample exactly when it was late, and the next one is due exactly one period on |
| SchedulerTiming.ScopeHolds | apps/contextctl-daemon/src/runtime/embedding-runtime-scheduler.ts:337-349 | Entering a scope drops the pending promotion, and over every run in which none ends after that no background work starts |
| SchedulerTiming.ResolveTakesWindow | apps/contextctl-daemon/src/runtime/embedding-runtime-scheduler.ts:279-287 | A Resolve submission cancels the pending promotion, and no background work starts before something settles, a scope ends, a sample is taken or background work is submitted |
| SchedulerProgress.CalmStep | apps/contextctl-daemon/src/runtime/embedding-runtime-scheduler.ts:382-454 | Without new Resolve work, every wake-up that starts no background work brings the next start strictly closer; only a background submission that is queued can put it off, by one |
| SchedulerProgress.BoundedWait | apps/contextctl-daemon/src/runtime/embedding-runtime-scheduler.ts:382-454 | In a run without new Resolve work that starts no background work, the wake-ups are at most the initial distance plus the background submissions queued meanwhile: waiting is bounded, not only never stranded |
| SchedulerProgress.WakeUpAvailable | apps/contextctl-daemon/src/runtime/embedding-runtime-scheduler.ts:417-454 | Whenever background work waits, letting the clock reach some instant enables one of the events it waits for; if only an overdue sampler is left, then after that one sample |
| SchedulerProgress.LateSampleRearms | apps/contextctl-daemon/src/runtime/embedding-runtime-scheduler.ts:417-430 | A sample that comes too late starts nothing, keeps the work waiting and leaves a sampler that is on time again; with the suppression already on and no Resolve entry waiting, the start is no further away than before |
| SchedulerProgress.Awakening | apps/contextctl-daemon/src/runtime/embedding-runtime-scheduler.ts:355-454 | While background work waits and no overdue sampler is all that is left, some wake-up can be waited for that starts background work or keeps all of it waiting and brings the start strictly closer |
| SchedulerProgress.BackgroundCanStart | apps/contextctl-daemon/src/runtime/embedding-runtime-scheduler.ts:355-454 | From every accepting state with background work waiting, letting only what is under way go on (operations settle, timers fire, scopes end, time passes) starts background work, within a number of events read off that state |
| EmbeddingRuntime.EmbeddingRuntimeScheduler.constructor | apps/contextctl-daemon/src/runtime/embedding-runtime-scheduler.ts:202-208 | A new scheduler is the open state of its profile |
| EmbeddingRuntime.EmbeddingRuntimeScheduler.Submit | apps/contextctl-daemon/src/runtime/embedding-runtime-scheduler.ts:269-335 | Computes the submission step in place, for both priorities and every path |
| EmbeddingRuntime.EmbeddingRuntimeScheduler.SettleOperation | apps/contextctl-daemon/src/runtime/embedding-runtime-scheduler.ts:364-378 | Computes the settle step in place |
| EmbeddingRuntime.EmbeddingRuntimeScheduler.DrainQueues | apps/contextctl-daemon/src/runtime/embedding-runtime-scheduler.ts:382-408 | The while loop over both queues computes the drain of the model |
| EmbeddingRuntime.EmbeddingRuntimeScheduler.PromoteEntry | apps/contextctl-daemon/src/runtime/embedding-runtime-scheduler.ts:393-406 | Drops an entry that is settled or cancelled and starts any other |
| EmbeddingRuntime.EmbeddingRuntimeScheduler.EnterResolveScope | apps/contextctl-daemon/src/runtime/embedding-runtime-scheduler.ts:337-339 | Takes a reservation and cancels the promotion |
| EmbeddingRuntime.EmbeddingRuntimeScheduler.ExitResolveScope | apps/contextctl-daemon/src/runtime/embedding-runtime-scheduler.ts:342-347 | Gives the reservation back; the last one rearms the promotion after the quiet period |
| EmbeddingRuntime.EmbeddingRuntimeScheduler.ScheduleBackgroundPromotion | apps/contextctl-daemon/src/runtime/embedding-runtime-scheduler.ts:432-447 | Arms a promotion only while accepting, with background work waiting and none armed |
| EmbeddingRuntime.EmbeddingRuntimeScheduler.FirePromotion | apps/contextctl-daemon/src/runtime/embedding-runtime-scheduler.ts:440-446 | The timer callback disarms itself and drains |
| EmbeddingRuntime.EmbeddingRuntimeScheduler.FireSample | apps/contextctl-daemon/src/runtime/embedding-runtime-scheduler.ts:421-428 | Measures how late the sample is, drains and rearms |
| EmbeddingRuntime.EmbeddingRuntimeScheduler.StartMonitoring | apps/contextctl-daemon/src/runtime/embedding-runtime-scheduler.ts:245-248 | Arms the sampler once |
| EmbeddingRuntime.EmbeddingRuntimeScheduler.AbortSignal | apps/contextctl-daemon/src/runtime/embedding-runtime-scheduler.ts:295-323 | Dispatching the signal over both queues is the abort step |
| EmbeddingRuntime.EmbeddingRuntimeScheduler.StopAccepting | apps/contextctl-daemon/src/runtime/embedding-runtime-scheduler.ts:251-267 | Disarms both timers and refuses everything that waits, as the stop step |
| EmbeddingRuntime.Remove | apps/contextctl-daemon/src/runtime/embedding-runtime-scheduler.ts:410-415 | The queue without the first entry of that id |
| ManualClock.SweepsCompose | apps/contextctl-daemon/src/runtime/clock.ts:93-113 | Sweeping to an instant and then to a later one is sweeping to the later one: same firings, same order, same instants, same state, including timers that callbacks schedule or cancel |
| ManualClock.AdvancesCompose | apps/contextctl-daemon/src/runtime/clock.ts:93-113 | Two advances are one by the sum, for any first amount and any second amount that is not negative |
| ManualClock.AdvancesComposeIff | apps/contextctl-daemon/src/runtime/clock.ts:93-113 | For all amounts: two moves are one iff the second is not negative or the sum leaves no timer pending that the first move reaches |
| ManualClock.QuietAdvancesComposeIff | apps/contextctl-daemon/src/runtime/clock.ts:93-113 | When no pending callback schedules or cancels anything, the condition is on the clock before both moves: the second is not negative, or no pending timer is due after the sum and by the first move |
| ManualClock.IdleAdvancesCompose | apps/contextctl-daemon/src/runtime/clock.ts:93-113 | Whatever the callbacks do, two moves of any amounts are one when nothing is due by the first |
| ManualClock.BackwardsAdvanceFires | apps/contextctl-daemon/src/runtime/clock.ts:93-113 | The failing input: a timer due at 1, a move to 2 and one back to 0 |
| ManualClock.SweepKeeps | apps/contextctl-daemon/src/runtime/clock.ts:96-112 | A forward sweep keeps the firings in (instant, id) order, leaves no deadline in the past, and only adds firings, all between the instant it starts at and the one it is headed for |
| ManualClock.RunsKeep | apps/contextctl-daemon/src/runtime/clock.ts:68-118 | Over every run of schedule, cancel and forward moves: time never steps back, firings are in (instant, id) order, no pending deadline is past, and every timer is pending, fired once or cancelled, never two of these |
| ManualClock.FiresWhenDue | apps/contextctl-daemon/src/runtime/clock.ts:84-113 | Over every run of forward moves a timer fires at the instant its delay asked for and at no other, not before the clock gets there, and in the move that takes it there unless it has been cancelled |
| ManualClock.UncancelledFires | apps/contextctl-daemon/src/runtime/clock.ts:84-113 | A timer that no operation and no callback cancels has fired at its instant exactly when the clock has reached it |
| ManualClock.OpenedHistory | apps/contextctl-daemon/src/runtime/clock.ts:76-78 | A new clock has an ordered, empty history |
| ManualClock.NextIsLeast | apps/contextctl-daemon/src/runtime/clock.ts:97-105 | The timer chosen is the least by (instant, id) among those due, and none is chosen only when none is due |
| ManualClock.FireShrinks | apps/contextctl-daemon/src/runtime/clock.ts:106-110 | Firing a timer strictly lowers the total size of the pending programs, so an advance ends |
| ManualClock.ManualRuntimeClock.Schedule | apps/contextctl-daemon/src/runtime/clock.ts:84-91 | Arms a timer under a fresh id, at once for a negative delay |
| ManualClock.ManualRuntimeClock.Cancel | apps/contextctl-daemon/src/runtime/clock.ts:88-90 | Cancelling is safe more than once and after firing |
| ManualClock.ManualRuntimeClock.RunCallback | apps/contextctl-daemon/src/runtime/clock.ts:110-110 | Runs a callback program on the clock in place, as the model does |
| ManualClock.ManualRuntimeClock.EarliestDue | apps/contextctl-daemon/src/runtime/clock.ts:97-105 | The scan over the pending timers finds the least due one |
| ManualClock.ManualRuntimeClock.Advance | apps/contextctl-daemon/src/runtime/clock.ts:93-113 | The unbounded loop computes the sweep of the model and ends |
| RequestBudgets.AllowancesSpareReserve | apps/contextctl-daemon/src/runtime/deadline.ts:80-175 | No stage allowance reaches into the assembly reserve: spending one in full leaves the reserve whole |
| RequestBudgets.FreshSelectionLeavesWork | apps/contextctl-daemon/src/runtime/profile.ts:253-285 | Under valid deadlines a request that has not waited gets its whole selection ceiling and still has workable time after using all of it |
| RequestBudgets.FirstEventDecides | apps/contextctl-daemon/src/runtime/deadline.ts:210-264 | A race settles exactly once: its first event decides, whatever callbacks run later |
| RequestBudgets.FirstEventIs | apps/contextctl-daemon/src/runtime/deadline.ts:227-253 | Of work, caller and timer, late timers included, the event that decides a race is one that happens and none happens sooner |
| RequestBudgets.WonRaceLeavesRest | apps/contextctl-daemon/src/runtime/deadline.ts:210-264 | A race is won only by work that settles before the timer fires and the caller gives up, and costs at most the allowance and what the timer was late by |
| RequestBudgets.RequestReasonMeansCaller | apps/contextctl-daemon/src/runtime/deadline.ts:274-300 | A stage signal carries the reason of the request only if the caller gave up, and none only within the allowance and what the timer is late by |
| RequestBudgets.TotalSignalDueAtDeadline | apps/contextctl-daemon/src/runtime/deadline.ts:118-152 | The total signal is due at arrival plus the total, however long the request waited first |
| RequestBudgets.RequestBudget.AssertCanAssemble | apps/contextctl-daemon/src/runtime/deadline.ts:185-189 | Refuses exactly a gone caller or no remaining time |
| RequestBudgets.RequestBudget.AssertWorkable | apps/contextctl-daemon/src/runtime/deadline.ts:192-195 | Reports the request for a gone caller and the stage for no workable time, in that order |
| RequestBudgets.RequestBudget.RaceStage | apps/contextctl-daemon/src/runtime/deadline.ts:210-264 | Ends at the first event against the timer it armed, however late that fires, and on every path leaves no timer and no listener of its own |
| RequestBudgets.RequestBudget.StageSignal | apps/contextctl-daemon/src/runtime/deadline.ts:274-300 | Already aborted without an allowance; otherwise armed for exactly the allowance |
| RequestBudgets.RequestBudget.Dispose | apps/contextctl-daemon/src/runtime/deadline.ts:294-299 | Takes back exactly what the signal armed |
| RequestBudgets.RequestBudget.TotalSignal | apps/contextctl-daemon/src/runtime/deadline.ts:118-152 | Armed for what remains, or aborted at once for a gone caller or no time |
| ContextApplication.ReserveAtAssembly | apps/contextctl-daemon/src/context-application.ts:190-331 | Assembly starts with the whole reserve, less only what synchronous steps after the last check spent and what the search overran its signal by |
| ContextApplication.AssemblyHasReserve | apps/contextctl-daemon/src/context-application.ts:190-331 | When only the stages spend time and the search respects its signal, assembly starts with the full reserve and its first check can refuse only a caller who gave up |
| ContextApplication.ShortAssemblyAnswers | apps/contextctl-daemon/src/context-application.ts:253-264 | And then an assembly shorter than the reserve answers, if and only if it does not throw and the caller is still there |
| ContextApplication.NoLateAnswer | apps/contextctl-daemon/src/context-application.ts:253-264 | Whatever the stages did, an answered run ends strictly before its deadline for a caller who is still there |
| ContextApplication.AnswersIff | apps/contextctl-daemon/src/context-application.ts:188-264 | A run answers if and only if nobody gives up, nothing throws, selection and audit are won within their allowances and leave work to be done, the search returns and assembly is through before the deadline; and the answer is the projection of what the search reported |
| ContextApplication.BatchFails | apps/contextctl-daemon/src/context-application.ts:340-404 | A search that fails as a whole fails every target, by its deadline exactly when its signal ran out of time or that is what it threw, and otherwise with its own code |
| ContextApplication.EffectsInOrder | apps/contextctl-daemon/src/context-application.ts:206-264 | In every run, nothing is searched before the plan and its audit record exist, and nothing is assembled before that |
| ContextApplication.SearchAllowanceIs | apps/contextctl-daemon/src/context-application.ts:286-290 | The search is allowed the smaller of its ceiling and the workable time, and something whenever no time passed since the last check |
| ContextApplication.RequestDeadlineMeansSlowAssembly | apps/contextctl-daemon/src/context-application.ts:190-331 | For a caller who stays, the request deadline is missed only by an assembly that takes as long as the reserve |
| ContextApplication.NothingInvented | apps/contextctl-daemon/src/context-application.ts:364-404 | A target is fulfilled only with hits reported for it, and one without a report is a failure, never an empty success |
| ContextApplication.LastReportCounts | apps/contextctl-daemon/src/context-application.ts:364-404 | The last report on a target is its outcome, fulfilled or failed, whatever was reported before |
| ContextApplication.SelectWithin | apps/contextctl-daemon/src/context-application.ts:199-220 | The selection stage in place, budget restored on every exit |
| ContextApplication.AuditWithin | apps/contextctl-daemon/src/context-application.ts:222-238 | The audit stage with its three checks in place, budget restored on every exit |
| ContextApplication.ExecuteManagedTargets | apps/contextctl-daemon/src/context-application.ts:277-330 | The managed search in place; its signal is disposed of on every exit |
| ContextApplication.ResolveWithin | apps/contextctl-daemon/src/context-application.ts:190-265 | The staged run in place equals the run of the model, and however it ends no stage timer or listener stays armed |
| WorkerModel.StepKeeps | apps/contextctl-daemon/src/runtime/ingestion-maintenance-worker.ts:127-218 | Never two cycles at once, never a cycle beside an armed timer, starts are settled cycles plus the one under way, and only a fired timer of a worker not told to stop begins one |
| WorkerModel.RunsKeep | apps/contextctl-daemon/src/runtime/ingestion-maintenance-worker.ts:73-218 | The same over every run |
| WorkerModel.DrainedForever | apps/contextctl-daemon/src/runtime/ingestion-maintenance-worker.ts:137-144 | Once told to drain, over every further run no cycle begins and no timer is armed |
| WorkerModel.StopCompletes | apps/contextctl-daemon/src/runtime/ingestion-maintenance-worker.ts:147-152 | After a stop the worker is stopped exactly when no cycle is under way |
| WorkerModel.CyclesSpaced | apps/contextctl-daemon/src/runtime/ingestion-maintenance-worker.ts:154-209 | In every run of a new worker a cycle begins no sooner after the last one settled than its outcome asks for |
| WorkerModel.StartIsDue | apps/contextctl-daemon/src/runtime/ingestion-maintenance-worker.ts:95-150 | A new worker that is started has a cycle due at that very instant, and its timer begins it |
| WorkerModel.NextIsDue | apps/contextctl-daemon/src/runtime/ingestion-maintenance-worker.ts:154-209 | After a cycle the next one is due exactly one interval on, the retry interval after a degraded report or a failure; what ended degraded and what failed is counted |
| MaintenanceWorkers.IngestionMaintenanceWorker.StartWorker | apps/contextctl-daemon/src/runtime/ingestion-maintenance-worker.ts:128-134 | Schedules the first cycle once, and throws exactly when stopping or stopped |
| MaintenanceWorkers.IngestionMaintenanceWorker.OnTimer | apps/contextctl-daemon/src/runtime/ingestion-maintenance-worker.ts:158-168 | A fired timer begins a cycle unless the worker was told to stop |
| MaintenanceWorkers.IngestionMaintenanceWorker.OnCycleSettled | apps/contextctl-daemon/src/runtime/ingestion-maintenance-worker.ts:171-218 | Counts the cycle, notes its outcome and schedules the next one after the interval its outcome asks for |
| MaintenanceWorkers.IngestionMaintenanceWorker.Drain | apps/contextctl-daemon/src/runtime/ingestion-maintenance-worker.ts:137-144 | Disarms and tells the worker to stop, once |
| MaintenanceWorkers.IngestionMaintenanceWorker.RequestStop | apps/contextctl-daemon/src/runtime/ingestion-maintenance-worker.ts:147-152 | Drains, and is stopped at once without a cycle under way |
| LifecycleModel.DrainKeeps | apps/contextctl-daemon/src/runtime/lifecycle.ts:111-125 | Draining calls every hook once and in order, silences the worker, stops every lane, and starts nothing |
| LifecycleModel.StepKeeps | apps/contextctl-daemon/src/runtime/lifecycle.ts:53-187 | Every step keeps the boundary sound and, once draining has begun, starts nothing on a lane and no cycle of a silenced worker |
| LifecycleSafety.RunsKeep | apps/contextctl-daemon/src/runtime/lifecycle.ts:53-187 | The same over every run |
| LifecycleSafety.NothingStartsOnceDraining | apps/contextctl-daemon/src/runtime/lifecycle.ts:111-125 | Once draining has begun, over every further run: no lane starts a task, idle lanes stay idle, and a hooked worker begins no cycle |
| LifecycleSafety.ReleasedWhenIdle | apps/contextctl-daemon/src/runtime/lifecycle.ts:139-167 | In every run of a new daemon, while resources are released and after it every lane is idle, unless the drain timeout has passed since the request |
| LifecycleSafety.BeginningRecords | apps/contextctl-daemon/src/runtime/lifecycle.ts:134-187 | Only the request for shutdown or a poll begins to release, and what is then to be released is every resource registered by that event |
| LifecycleSafety.ReleasedInReverse | apps/contextctl-daemon/src/runtime/lifecycle.ts:134-187 | In every run a finished shutdown has released exactly the resources registered before the event that began the release, a request for shutdown or a poll: each once, last registered first, whichever of them failed |
| LifecycleSafety.AllReleasedIff | apps/contextctl-daemon/src/runtime/lifecycle.ts:134-187 | A finished shutdown has released everything if and only if the run registers no resource from the event on that began the release |
| LifecycleSafety.HooksCalledOnce | apps/contextctl-daemon/src/runtime/lifecycle.ts:96-125 | In every run the hooks called are exactly the hooks registered so far, in that order, as soon as draining has begun, and none before |
| LifecycleSafety.PollsBounded | apps/contextctl-daemon/src/runtime/lifecycle.ts:155-167 | Over a whole run there is at most one poll for every ten milliseconds of the timeout and one more, and a poll once the time is up starts the release |
| LifecycleSafety.LookReleasesIff | apps/contextctl-daemon/src/runtime/lifecycle.ts:155-167 | A look at the lanes begins the release if and only if all are idle or the time is up; otherwise the next look is due exactly ten milliseconds on |
| LifecycleSafety.OutcomesRecorded | apps/contextctl-daemon/src/runtime/lifecycle.ts:169-187 | Every release is recorded with its own outcome, in order |
| LifecycleSafety.ShutdownShared | apps/contextctl-daemon/src/runtime/lifecycle.ts:134-137 | A second shutdown request changes nothing |
| LifecycleSafety.LateResourceNeverReleased | apps/contextctl-daemon/src/runtime/lifecycle.ts:169-187 | A resource registered after releasing began is never released |
| LifecycleSafety.LateResourceStaysOpen | apps/contextctl-daemon/src/runtime/lifecycle.ts:169-187 | A run in which a resource registered while the shutdown releases is still open when the daemon has closed |
| DaemonLifecycles.DaemonLifecycle.RegisterDrainHook | apps/contextctl-daemon/src/runtime/lifecycle.ts:96-102 | Kept for later while accepting, called at once otherwise |
| DaemonLifecycles.DaemonLifecycle.CallHooks | apps/contextctl-daemon/src/runtime/lifecycle.ts:114-121 | Calls the hooks in order, whether or not one throws |
| DaemonLifecycles.DaemonLifecycle.StopLanes | apps/contextctl-daemon/src/runtime/lifecycle.ts:122-124 | Stops every lane and touches nothing else |
| DaemonLifecycles.DaemonLifecycle.BeginDrain | apps/contextctl-daemon/src/runtime/lifecycle.ts:111-125 | Computes the draining of the model over real lanes and a real worker, once |
| DaemonLifecycles.DaemonLifecycle.LanesIdle | apps/contextctl-daemon/src/runtime/lifecycle.ts:158 | Whether every lane is idle |
| DaemonLifecycles.DaemonLifecycle.Shutdown | apps/contextctl-daemon/src/runtime/lifecycle.ts:134-145 | Drains and takes the first look, once |
| DaemonLifecycles.DaemonLifecycle.OnPoll | apps/contextctl-daemon/src/runtime/lifecycle.ts:155-167 | One more look; what to release is fixed when the wait is over |
| DaemonLifecycles.DaemonLifecycle.ReverseOrder | apps/contextctl-daemon/src/runtime/lifecycle.ts:174 | The registration indices, last first |
| DaemonLifecycles.DaemonLifecycle.ReleaseNext | apps/contextctl-daemon/src/runtime/lifecycle.ts:174-185 | Releases the next resource once and records a failure without stopping |
| DaemonLifecycles.DaemonLifecycle.Finish | apps/contextctl-daemon/src/runtime/lifecycle.ts:142-144 | With nothing left to release the daemon is closed |
| SnapshotRestore.RestoreCompletes | apps/contextctl-daemon/src/operations/qdrant-snapshot-archive.ts:120-176 | A restore that returns has every collection on the server, all of them new, and changed nothing else |
| SnapshotRestore.RestoreSucceedsIff | apps/contextctl-daemon/src/operations/qdrant-snapshot-archive.ts:120-176 | A restore returns if and only if every name is well-formed and found absent and every upload is acknowledged, takes effect and is seen, read off the replies to come |
| SnapshotRestore.CleanupFailedIff | apps/contextctl-daemon/src/operations/qdrant-snapshot-archive.ts:131-172 | A failed cleanup is reported if and only if some upload did not work and either nobody knows what it did or a deletion was not acknowledged |
| SnapshotRestore.UploadFailureReported | apps/contextctl-daemon/src/operations/qdrant-snapshot-archive.ts:131-172 | A restore that failed while uploading and cleaned up reports the error of the first upload that did not work |
| SnapshotRestore.PreflightFailureReported | apps/contextctl-daemon/src/operations/qdrant-snapshot-archive.ts:120-129 | The first name that is malformed, unanswered or already there stops the restore with the error that says which |
| SnapshotRestore.RestoreAtomic | apps/contextctl-daemon/src/operations/qdrant-snapshot-archive.ts:120-172 | Any failure other than a failed cleanup leaves exactly the collections that were there, even when an upload failed after taking effect |
| SnapshotRestore.RestoreHarmless | apps/contextctl-daemon/src/operations/qdrant-snapshot-archive.ts:120-190 | Whatever happens what was there stays, only restored names can remain, and the deletions asked for are the created names, newest first, none of which was there before |
| SnapshotRestore.PreflightPassesIff | apps/contextctl-daemon/src/operations/qdrant-snapshot-archive.ts:124-129 | The preflight passes if and only if every name is well-formed and absent and every probe is answered |
| SnapshotRestore.RestoreAtomicOnceSettled | apps/contextctl-daemon/src/operations/qdrant-snapshot-archive.ts:120-172 | When an upload may land after its probe, a failed restore is undone for good if and only if the preflight stops it or no upload it gets to takes effect late, which the replies to come decide |
| SnapshotRestore.PromptServerRestoresForGood | apps/contextctl-daemon/src/operations/qdrant-snapshot-archive.ts:139-156 | So it is undone for good whenever no request takes effect late |
| SnapshotRestore.LateUploadSurvives | apps/contextctl-daemon/src/operations/qdrant-snapshot-archive.ts:139-156 | The input that shows it: one upload that times out and lands afterwards |
| SnapshotRestore.UndoInverts | apps/contextctl-daemon/src/operations/qdrant-snapshot-archive.ts:174-189 | Undoing a finished restore without an error gives back the collections that were there, and undoing again asks for nothing |
| SnapshotRestore.DeleteAllRemoves | apps/contextctl-daemon/src/operations/qdrant-snapshot-archive.ts:327-347 | A sweep asks for every listed deletion in order despite errors, and without an error has removed them all |
| SnapshotRestore.DeleteCollections | apps/contextctl-daemon/src/operations/qdrant-snapshot-archive.ts:327-347 | The loop computes the sweep over the reversed list |
| SnapshotRestore.CheckAbsent | apps/contextctl-daemon/src/operations/qdrant-snapshot-archive.ts:124-129 | The preflight loop stops at the first malformed, present or unanswered name |
| SnapshotRestore.UploadCollections | apps/contextctl-daemon/src/operations/qdrant-snapshot-archive.ts:131-162 | The upload loop with its probes computes the progress of the model |
| SnapshotRestore.RestoreCollections | apps/contextctl-daemon/src/operations/qdrant-snapshot-archive.ts:120-172 | The whole restore in place, with the error it reports |
| SnapshotRestore.RestoreLease.Rollback | apps/contextctl-daemon/src/operations/qdrant-snapshot-archive.ts:174-189 | Undoes while the lease is active and uses it up only without an error |
| StateBackup.HomeImpliesCollections | apps/contextctl-daemon/src/operations/state-backup.ts:311-316 | At no point of any run is a restored home visible without every collection |
| StateBackup.RestoreStateCompletes | apps/contextctl-daemon/src/operations/state-backup.ts:246-317 | A run that returns has put home and collections in place, and no more |
| StateBackup.RestoreStateSucceedsIff | apps/contextctl-daemon/src/operations/state-backup.ts:246-317 | A run returns if and only if there is no home, every check passes, the directory is made and protected, every file is staged, every upload works and the rename is done |
| StateBackup.RestoreStateBacksOut | apps/contextctl-daemon/src/operations/state-backup.ts:318-338 | A run that fails leaves the home as it was, and the collections too unless the vector side could not clean up |
| StateBackup.StagingLeftIff | apps/contextctl-daemon/src/operations/state-backup.ts:266-338 | A staging directory is left if and only if it was made and either its permissions could not be set or the run did not commit and could not remove it |
| StateBackup.StagingSurvives | apps/contextctl-daemon/src/operations/state-backup.ts:266-271 | The failing input: the directory is made, its permissions cannot be set, and nothing tries to remove it |
| StateBackup.StageCopies | apps/contextctl-daemon/src/operations/state-backup.ts:273-310 | The staging loop stops at the first error |
| StateBackup.RestoreStateBackup | apps/contextctl-daemon/src/operations/state-backup.ts:246-339 | The sequence of effects with its two flags computes the run of the model |
| CoverOrder.OrderIndependence | benchmarks/utility-evaluation/src/deferred-evidence-cover-v11-policy.ts:124-311 | Listing cards, scopes or chunks in any other order changes nothing of the plan, its audit or its refusal |
| CoverOrder.ReversalRearranges | benchmarks/utility-evaluation/src/deferred-evidence-cover-v11.ts:572-581 | The reversal that the repository checks is one such rearrangement |
| CoverGreedy.TokenWeightsNormal | benchmarks/utility-evaluation/src/deferred-evidence-cover-v11-policy.ts:394-406 | Word weights are positive and add up to one |
| CoverGreedy.ExactWordMatches | benchmarks/utility-evaluation/src/deferred-evidence-cover-v11-policy.ts:384-403 | A chunk matches a query word if and only if it holds that very word; similar words alone support it by at most a quarter |
| CoverGreedy.RarerWeighsMore | benchmarks/utility-evaluation/src/deferred-evidence-cover-v11-policy.ts:394-406 | With a rising logarithm a query word that fewer chunks hold weighs more |
| CoverGreedy.EvidenceRests | benchmarks/utility-evaluation/src/deferred-evidence-cover-v11-policy.ts:166-199 | Evidence rests on the chunk with the highest sentence similarity, among equals the smallest revision, and counts scopes and distinct chunks |
| CoverGreedy.SentenceCountsFourfold | benchmarks/utility-evaluation/src/deferred-evidence-cover-v11-policy.ts:494-497 | In the combined support a better sentence counts four times as much as a better card |
| CoverGreedy.PickLowersDeficit | benchmarks/utility-evaluation/src/deferred-evidence-cover-v11-policy.ts:344-367 | A pick lowers the deficit by exactly its marginal coverage |
| CoverGreedy.MarginalsShrink | benchmarks/utility-evaluation/src/deferred-evidence-cover-v11-policy.ts:344-345 | The marginal of an entry never grows as the coverage does |
| CoverGreedy.JointGainBounded | benchmarks/utility-evaluation/src/deferred-evidence-cover-v11-policy.ts:456-461 | Several entries together gain at most the sum of their marginals |
| CoverGreedy.ChoiceIsBest | benchmarks/utility-evaluation/src/deferred-evidence-cover-v11-policy.ts:341-365 | Compared by cross products, nothing that could be picked gains more coverage for its scopes and chunks than what is; among equals what is picked has the highest support, and then the smallest version |
| CoverGreedy.CheaperGoesFirst | benchmarks/utility-evaluation/src/deferred-evidence-cover-v11-policy.ts:341-365 | Of two entries with the same gain the dearer one is not picked while the cheaper one is there |
| CoverGreedy.GrowResult | benchmarks/utility-evaluation/src/deferred-evidence-cover-v11-policy.ts:335-375 | The loop ends with one to four distinct survivors whose pointwise maximum is the coverage, below the target, a deficit at least 0.01 lower for every pick, and one of three reasons to stop |
| CoverGreedy.StuckLeavesThree | benchmarks/utility-evaluation/src/deferred-evidence-cover-v11-policy.ts:337-375 | If it stops for lack of choices short of the target, at least three survivors remain unselected |
| CoverGreedy.InsufficientNeedsFour | benchmarks/utility-evaluation/src/deferred-evidence-cover-v11-policy.ts:325-376 | An attempt that misses the target had at least four survivors |
| CoverGreedy.DroppedIsOutdone | benchmarks/utility-evaluation/src/deferred-evidence-cover-v11-policy.ts:212-221 | Every dropped supplement is outdone by a survivor on the same chunk at strictly lower cost |
| CoverGreedy.SurvivorsExist | benchmarks/utility-evaluation/src/deferred-evidence-cover-v11-policy.ts:207-221 | There are survivors if and only if there are supplements |
| CoverGreedy.SurvivorsIncomparable | benchmarks/utility-evaluation/src/deferred-evidence-cover-v11-policy.ts:212-221 | No survivor outdoes another |
| CoverGreedy.LeaderIs | benchmarks/utility-evaluation/src/deferred-evidence-cover-v11-policy.ts:222-232 | The leader is the best survivor at or above 0.89, among equals the smallest version, and missing exactly when there is none |
| CoverGreedy.AttemptIs | benchmarks/utility-evaluation/src/deferred-evidence-cover-v11-policy.ts:233-256 | An attempt with a leader selects one to four distinct survivors, the leader among them, and its coverage is theirs |
| CoverGreedy.DispositionMeans | benchmarks/utility-evaluation/src/deferred-evidence-cover-v11-policy.ts:247-311 | Admit, defer and reject, each with what it means: one to four survivors within 0.025 of the target with one at or above 0.89; exactly one routed card; no card at or above 0.82 |
| CoverGreedy.FewSurvivorsAdmit | benchmarks/utility-evaluation/src/deferred-evidence-cover-v11-policy.ts:233-276 | With a leader and at most three survivors the plan admits |
| CoverGreedy.PlanRestsOn | benchmarks/utility-evaluation/src/deferred-evidence-cover-v11-policy.ts:151-201 | A plan that is made rests on proper evidence of distinct versions and on normal weights, so that all of the above applies to it |
| CoverLoops.AssertBounds | benchmarks/utility-evaluation/src/deferred-evidence-cover-v11-policy.ts:503-555 | The three nested loops accept exactly the cards within bounds, with one text and similarity per chunk revision |
| CoverLoops.DistinctChunks | benchmarks/utility-evaluation/src/deferred-evidence-cover-v11-policy.ts:429-442 | One entry for each chunk revision, with the words of its text |
| CoverLoops.SelectMinimumSetLoop | benchmarks/utility-evaluation/src/deferred-evidence-cover-v11-policy.ts:325-376 | The loop computes the greedy selection |
| CandidateCut.LeadersSurvive | benchmarks/utility-evaluation/src/deferred-evidence-cover-v11-policy.ts:62-93 | For any catalog of distinct versions the best lexical and the best semantic card survive the cut to sixteen |
| CandidateCut.TopRanksHigh | benchmarks/utility-evaluation/src/deferred-evidence-cover-v11-policy.ts:69-93 | The top card of either list has at most twelve before it in the merged ranking |
| CandidateCut.OutputShape | benchmarks/utility-evaluation/src/deferred-evidence-cover-v11-policy.ts:62-93 | At most sixteen cards of distinct versions, best routing first, each from a top-12 list, with supports in [0, 1] |
| CandidateCut.TopHoldsBest | benchmarks/utility-evaluation/src/deferred-evidence-cover-v11-policy.ts:557-580 | A ranking holds twelve cards or all of them, and none outside it has a stronger signal than one inside, or an equal one and the smaller version |
| CandidateCut.CutKeepsBest | benchmarks/utility-evaluation/src/deferred-evidence-cover-v11-policy.ts:62-93 | A candidate is cut only when sixteen others route better, or equally with more support, or with the smaller version |
| CandidateCut.SupportFallsEvenly | benchmarks/utility-evaluation/src/deferred-evidence-cover-v11-policy.ts:582-592 | Rank supports fall in equal steps from one at the top to zero at the end |
| CandidateCut.LeaderSupport | benchmarks/utility-evaluation/src/deferred-evidence-cover-v11-policy.ts:69-88 | The top card of one ranking routes with 0.8 when the other does not list it, and with 1 when it leads both |
| CandidateCut.CatalogOrderIrrelevant | benchmarks/utility-evaluation/src/deferred-evidence-cover-v11-policy.ts:62-93 | The candidates do not depend on the order of the catalog |
| CandidateCut.CheckDistinct | benchmarks/utility-evaluation/src/deferred-evidence-cover-v11-policy.ts:561-566 | Accepts exactly catalogs of distinct versions |
| CanonicalJson.DecimalValid | packages/contracts/src/contract-validation.ts:64-64 | Decimal notation prints different numbers differently, so what is asked of a number printer can be met |
| CanonicalJson.ParseRecovers | packages/contracts/src/contract-validation.ts:62-78 | A parser recovers from any printed value its normal form and the text that follows |
| CanonicalJson.StringRoundTrip | packages/contracts/src/contract-validation.ts:64-64 | Reading back a quoted, escaped string gives the string, lone surrogates included |
| CanonicalJson.PrintsNormal | packages/contracts/src/contract-validation.ts:62-78 | A value prints as its normal form does |
| CanonicalJson.PrintsAlikeIff | packages/contracts/src/contract-validation.ts:62-78 | Two values print alike if and only if their normal forms are equal |
| ContractValidation.NormalDecides | packages/contracts/src/contract-validation.ts:69-77 | Normal forms are equal if and only if the values are the same up to member order and undefined members, undefined counting as null elsewhere |
| ContractValidation.PrintsAlike | packages/contracts/src/contract-validation.ts:62-78 | Two values print alike if and only if they are the same in that sense |
| ContractValidation.CanonicalTextInjective | packages/contracts/src/contract-validation.ts:62-78 | Where undefined stands only in members, printing alike is being equal up to member order and undefined members |
| ContractValidation.UntidyValuesCollide | packages/contracts/src/contract-validation.ts:63-68 | Where undefined stands elsewhere, putting null in its place always gives a different value that prints the same, and nowhere else |
| ContractValidation.UndefinedPrintsAsNull | packages/contracts/src/contract-validation.ts:63-68 | The smallest collision: an array of undefined and an array of null |
| ContractValidation.AcceptsSortedUnique | packages/contracts/src/contract-validation.ts:44-59 | No issue is reported if and only if every text strictly precedes the later ones |
| Texts.LessMeans | packages/contracts/src/contract-validation.ts:44-59 | One text precedes another if and only if it is a proper beginning of it or has the smaller unit where they first differ |
| ContractValidation.PrintedInOrder | packages/contracts/src/contract-validation.ts:62-78 | In printed text the members of every object, at every depth, stand in strictly rising order of their keys |
| RankingMetrics.DcgBound | benchmarks/utility-evaluation/src/metrics.ts:210-213 | Hits gain at most what as many leading positions would, and as much if and only if they are the leading positions |
| RankingMetrics.NdcgWithinUnitIff | benchmarks/utility-evaluation/src/metrics.ts:205-220 | nDCG lies in [0, 1] under every strictly falling positive discount if and only if the result has no more hits than the ideal counts, or the ideal counts none |
| RankingMetrics.ShortDistinctFits | benchmarks/utility-evaluation/src/metrics.ts:205-220 | A duplicate-free list no longer than the cutoff has no more hits than the ideal counts |
| RankingMetrics.NdcgWithinUnit | benchmarks/utility-evaluation/src/metrics.ts:205-220 | So for one discount the value of such a result lies in [0, 1] |
| RankingMetrics.NdcgPerfectIff | benchmarks/utility-evaluation/src/metrics.ts:205-220 | Of a result with no more hits than the ideal counts, the value is 1 if and only if the first min(cutoff, relevant) positions are all relevant |
| RankingMetrics.SingleHitScores | benchmarks/utility-evaluation/src/metrics.ts:205-220 | With one relevant item the value is the discount of its position as a share of the discount of the first |
| RankingMetrics.LeadingOverflows | benchmarks/utility-evaluation/src/metrics.ts:210-219 | With one leading hit more than the ideal counts the value exceeds 1 under every discount |
| RankingMetrics.BeyondTheCutoff | benchmarks/utility-evaluation/src/metrics.ts:210-219 | An instance past the cutoff: two relevant results at cutoff one |
| RankingMetrics.DuplicatesOvercount | benchmarks/utility-evaluation/src/metrics.ts:210-219 | An instance with a repeat: one relevant item returned twice |
| RankingMetrics.ComputeNdcg | benchmarks/utility-evaluation/src/metrics.ts:205-220 | Both loops compute the quotient of gain and ideal |
| RankingMetrics.PercentileSplits | benchmarks/utility-evaluation/src/metrics.ts:135-140 | For any quantile: the percentile is a sample; at least the asked share of samples is at most it and less than that share is below it, none at all for a quantile of zero or less; it exists if and only if the quantile is at most one |
| HybridIndex.BuildHybridIndex | benchmarks/utility-evaluation/src/baseline.ts:36-67 | Either an index that agrees with counting the corpus directly (document frequencies, lengths, average) or the exact error: no chunks, or the first repeated revision |
| HybridIndex.FrequencyMap | benchmarks/utility-evaluation/src/baseline.ts:207-213 | Each token with its number of occurrences |
| HybridIndex.CountTerms | benchmarks/utility-evaluation/src/baseline.ts:56-58 | Each listed term counted once more, every other left alone |
| HybridIndex.ContainingBounds | benchmarks/utility-evaluation/src/baseline.ts:56-58 | A document frequency is at most the corpus size and positive if and only if some chunk contains the term |
| HybridIndex.Bm25PositiveIff | benchmarks/utility-evaluation/src/baseline.ts:168-192 | A score is never negative, and positive if and only if the chunk is indexed and contains a query term |
| HybridIndex.RarerTermScoresMore | benchmarks/utility-evaluation/src/baseline.ts:168-192 | With a rising logarithm, of two terms that a chunk contains equally often the one that fewer chunks contain scores more |
| HybridIndex.DenserChunkScoresMore | benchmarks/utility-evaluation/src/baseline.ts:168-192 | Of two chunks that contain a term, one that contains it no less often and is no longer scores more, unless they are alike in both |
| HybridIndex.WeightScale | benchmarks/utility-evaluation/src/baseline.ts:168-192 | One occurrence in a document of average length weighs exactly 1, in one twice as long 2.2 in 3.1, and no number of them weighs 2.2 |
| HybridIndex.Bm25Score | benchmarks/utility-evaluation/src/baseline.ts:168-192 | The loop adds up the scores of the terms that occur |
| HybridRetrieval.AddRrf | benchmarks/utility-evaluation/src/baseline.ts:194-205 | Adds to every id exactly what the ranking contributes to it, over all its positions |
| HybridRetrieval.FusionRespectsAgreement | benchmarks/utility-evaluation/src/baseline.ts:100-102 | An id ahead of another in both rankings fuses to the higher score |
| HybridRetrieval.AgreementBeatsFirstIff | benchmarks/utility-evaluation/src/baseline.ts:194-205 | An id listed in both rankings outscores the first of one that the other does not list if and only if the product of its positions is below 61 squared |
| HybridRetrieval.PackMaximal | benchmarks/utility-evaluation/src/baseline.ts:113-120 | Short of topK chunks, nothing that was passed over still fits the budget |
| HybridRetrieval.PicksWithin | benchmarks/utility-evaluation/src/baseline.ts:113-120 | The packed list is a subsequence of the ranking within topK and the budget |
| HybridRetrieval.Pack | benchmarks/utility-evaluation/src/baseline.ts:113-120 | The loop takes exactly those chunks |
| HybridRetrieval.PackDelivers | benchmarks/utility-evaluation/src/baseline.ts:103-120 | Packing a ranking of distinct ids delivers it ordered and without repeats |
| HybridRetrieval.DenseEntries | benchmarks/utility-evaluation/src/baseline.ts:78-89 | Looks every dense entry up, or names the first unknown one |
| HybridRetrieval.LexicalEntries | benchmarks/utility-evaluation/src/baseline.ts:91-99 | The chunks with a positive score |
| HybridRetrieval.Fuse | benchmarks/utility-evaluation/src/baseline.ts:78-102 | Every id of both cut rankings, each with the sum of its shares; each cut holds the best entries of its ranking |
| HybridRetrieval.CutIsBest | benchmarks/utility-evaluation/src/baseline.ts:91-98 | A cut holds as many ids as asked for: those of entries counted with their repeats, in falling score, then rising text and id, none of them behind one left out |
| HybridRetrieval.BestIdsUnique | benchmarks/utility-evaluation/src/baseline.ts:91-98 | There is only one such list of ids |
| HybridRetrieval.FusedSourced | benchmarks/utility-evaluation/src/baseline.ts:103-112 | No fused id can be missing from the index: it is in the dense ranking or contains a query feature |
| HybridRetrieval.FusedRankingUnique | benchmarks/utility-evaluation/src/baseline.ts:100-110 | The ordered fused ranking of two cut rankings is determined by them: there is only one |
| HybridRetrieval.RetrieveHybrid | benchmarks/utility-evaluation/src/baseline.ts:69-128 | Fails only for an unknown dense entry; otherwise delivers what packing takes from the one fused ranking of the best dense and the best lexical entries, and reports the sizes of the catalog, of both cut rankings and of the fused one |
| HybridRetrieval.DeliveredScoresWithinUnit | benchmarks/utility-evaluation/src/metrics.ts:205-220 | What retrieval delivers scores an nDCG in [0, 1] at any cutoff of at least topK |

## Left out

- Real input and output: HTTP, SQLite, file copies and hashes, worker threads, model inference; where a core needs them they are oracles with arbitrary outcomes.
- JavaScript microtask order and calls back into an object from inside its own running block: every block is one atomic step.
- Tests for non-finite numbers (`Number.isFinite`, the clock check of the worker, safe-integer checks): the model's numbers are always finite.
- Floating-point rounding: scores, weights, averages and fused scores are exact reals.
- Word segmentation, Unicode normalisation, n-gram tokenisation and logarithms: parameters with the facts listed above.
- Memory readings and diagnostic snapshots of the scheduler, lane names, error messages and diagnostic codes: they decide nothing.
- The signal a lane or a scope passes to its running task: only queued work is cancelled in the model, running work settles when it settles.
- `SystemRuntimeClock`: a thin layer over the platform's timers.
- Profile versions and the lane capacities of a profile: only the deadline rules are used.
- Policy and audit digests of the cover plan: a digest of a body that is proved equal is equal.
- Array holes, objects with symbol keys and `toJSON` in canonical text: values are those of the `Json` datatype.
- Directory creation by others between the absence check and the rename of a restore: the target is assumed exclusive, as the program requires.
- The check of the expected identity's own shape before a restore: it refuses before anything is looked at.
- The order in which a restored state's files are copied and checked: a staging step is one outcome each.
- AssertBounds: states when the check accepts, not which of several violations it reports, because every one of them refuses the input with the same kind of error.
- The end of a maintenance cycle is not tied to the fate of its lane task: a cycle may settle at any time after it began, in any of the ways the lane allows.
- The command line, configuration readers and the composition root: presentation and wiring.
- Creating backups, the registry, ingestion and selection internals, and the embedding ports over the scheduler: they add no property of the kinds above.
