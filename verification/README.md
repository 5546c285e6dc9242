# Botragram runtime: a verified model

Botragram is an automated trading runtime. This project models the parts of it
where a mistake would cost money or leave a position unattended, and proves what
they guarantee for every input, every environment and every run:

- **Candle aggregation** (`Intervals`, `Candles`, `Sorting`, `Resampler`,
  `ResampleProperties`, `Aggregator`, `CandleClose`): the one-bucket streaming
  aggregator, the batch resampler, their common bucket arithmetic, and the
  candle-close delay.
- **Runtime control** (`RuntimeControl`, `RuntimeCalls`, `RuntimeSystem`): the
  lock-and-gate object shared by the runner, operators and streams, and its
  interleavings. A method that does not await is one atomic step.
- **The autonomous LIVE cycle** (`LiveCycle`, `LiveCycleSafety`,
  `LiveCycleOutcomes`, `LiveCycleReports`, `DiscoveryTelemetry`): capacity, rate
  limit, replay claim, intent, execution and adoption, and what is reported about them.
- **Recovery** (`RuntimeHealth`, `Recovery`, `RecoveryOutcomes`, `RecoveryProvider`,
  `RunLoop`): the recovery policy over observed health, the unattended and operational
  recovery loops with the provider they call, and the main loop with its failure counter.
- **Cadence scheduling** (`Scheduler`), **exception chains** (`ExceptionChain`),
  **private-stream freshness** (`UserDataStream`, `StreamExposure`), **zone-first
  stalking** (`StalkingSetups`, `StalkingPrices`, `StrategyService`, `EntrySignals`,
  `StalkingSafety`), **step-size rounding** (`Rounding`), the **restart coordinator**
  (`Restart`) and **retry delays** (`Backoff`).

Objects whose methods change their fields are classes here too; each method is
proved equal to a step of a specification function, and the guarantees are lemmas
about those functions. Everything the program awaits (exchange answers, health
snapshots, recovery results, operator calls, clock readings) is an answer on a
tape: a statement about all tapes is a statement about all environments.

`dafny verify dfyconfig.toml` checks the whole project.

## Findings

Where the code does not do what its names or documentation say, the model follows
the code, and a lemma gives the exact condition.

- Resampling 1m to 7m to 1w differs from 1m to 1w, because a 7m bucket straddles
  Monday midnight; of all accepted non-monthly chains it is the only one that
  fails (`CompositionFailsOnlyForWeekOfSevenMinutes`).
- The candle-close delay counts weeks from the epoch's Thursday, while weekly
  buckets open on Mondays: for the weekly interval it misses the close at every
  instant, for every other interval it never does (`WakesAtCloseUnlessWeekly`).
- The cycle claims the discovered candle but executes the decision's signal. The
  two agree exactly when risk evaluation keeps the candle
  (`RunsClaimedCandleExactlyWhenKept`, `StrayEvaluationsRunOneCandleTwice`), which
  the repository's own evaluation service does when no price override is given
  (botragram/services/execution/live_entry_risk_evaluation_service.py:217-229).
- The main loop's count of "consecutive" failures is not cleared by a completed
  market-wide cycle, so isolated failures stop the runtime
  (`CountsConsecutiveUnlessForgotten`, `IsolatedFailuresStopTheRuntime`).
- The pause flag is looked at only by a runner that is not already on its way: a
  woken runner and the rest of a batch start their cycles while paused
  (`CyclesStartExactlyWhen`), and a strategy change separates contexts from their
  authorization while the runtime keeps running (`DriftExactlyBySelection`,
  `StrategyChangeDriftsWhileActive`).
- Unattended recovery is fail-closed as long as nobody resumes while it waits with
  protection verified (`RecoveryIsFailClosed`); otherwise the control reopens entry in
  the middle of the outage (`VouchingFailureLetsOperatorReopen`). A pass through the
  reconciling provider waits with protection verified, or fails with it verified,
  exactly in these cases (`PreparingIsDutifulUnlessItVouches`): the operator exit it
  works on adopts a portfolio, or waits there for the stream of a single position or
  for a stale one of none; an entry it finishes is resolved with a lifecycle to
  complete, or is finished on an unsupported market; it finds a single position, no
  position but a stale stream, or no position and no entry authority. With a single
  position a resume during the wait for its stream does reopen the runtime
  (`ResumeDuringStreamsReopens`); undisturbed, the same pass is safe
  (`RecoveryThroughProviderIsFailClosed`). While an exit is reserved the control itself
  refuses a resume (`ActivationIsGuarded`). The operator interface makes further checks
  of its own, which are not part of this model.
- Asked to activate, the same provider lets the operational loop go on with
  protection verified after an exit still pending, an entry finished on an
  unsupported market, or an empty portfolio without entry authority
  (`ActivatingIsDutifulUnlessItLeavesOpen`, `LeavingOpenMeansLeavingVerified`).
- When the reconciliation after an early exit fails, the cycle goes on with the
  portfolio from before the exit and may enter: exactly then an entry follows a failed
  reconciliation (`EntersAfterFailedReadExactlyWhen`, `FailedExitReadStillEnters`).
- Without a recovery provider an unattended health failure is reported as not
  recovered while the control stays active (`HealthRecoveryIsFailClosed`).
- An error raised while a connectivity outage is being handled has the outage as its
  context, so it is classified as transient whatever it is and recovery retries it
  (`HandlingAnOutageTaints`); only an error raised in another task escapes the loop,
  at any failure count (`RaisingRecoveryEndsTheLoopAtAnyCount`).
- A blocked or unsafe submission aborts the cycle without the results gathered
  before it, although the error's documentation says they are preserved; it is the
  only way to lose them (`UnsafeSubmissionReportsNothing`,
  `UnsafeSubmissionLosesAnEntry`).
- A round refused the cycle lock leaves the telemetry showing a scan in progress
  (`RoundsSayHowTheyEnded`).
- A session that resumes from waiting after its restart was consumed fails, or takes
  a request nobody has committed (`WaitingFailsExactlyWhenAllIsConsumed`,
  `LateWaiterMissesItsRequest`).
- A triggered stalking setup that nobody executes blocks its symbol: generation
  never reaches the branch that would expire it
  (`UnexecutedTriggerBlocksItsSymbol`), until it is removed otherwise
  (`TriggerBlocksExactlyUntilRemoved`).
- The confidence boost of a decisive pattern is capped at 0.95, so a setup above that
  enters with less than its own confidence (`EntersExactlyWhenPresented`).
- A failed batch leaves every context in it due at once, those whose own cycle had
  succeeded included (`FailedBatchIsDueAgain`, `StartsExactlyWhenCadencePassed`).

## Model

| member | source | states |
|---|---|---|
| Intervals.BucketContains | botragram/utils/candle_resampler.py:46-83 | every instant lies in its own bucket, which starts on a boundary of the interval (Mondays for the week) |
| Intervals.BucketIsUnique | botragram/utils/candle_resampler.py:46-69 | that bucket is the only one containing the instant |
| Intervals.BucketsAreOrdered | botragram/utils/candle_resampler.py:46-83 | later instants never fall in earlier buckets, and different buckets do not overlap |
| Intervals.NestsExactlyWhenAligned | botragram/utils/candle_resampler.py:46-69 | among interval pairs that divide, fine buckets nest in coarse ones exactly when the pair is not 7m in 1w |
| Candles.FoldSummarizes | botragram/utils/candle_aggregator.py:142-204 | merging one candle at a time yields, for each non-empty bucket in order, its first open, highest high, lowest low, last close and total volume |
| Candles.SummariesAreUnique | botragram/utils/candle_resampler.py:165-200 | those per-bucket summaries, in time order, determine the output sequence |
| Candles.FoldComposes | botragram/utils/candle_aggregator.py:142-204 | aggregating to an aligned middle interval first does not change the aggregation to the target |
| Sorting.SortIsStable | botragram/utils/candle_resampler.py:150-158 | the ordering by open time keeps all candles and the arrival order of equal open times |
| Sorting.StableSortIsUnique | botragram/utils/candle_resampler.py:150-158 | any two orderings with those properties are the same sequence |
| Resampler.GroupByBucket | botragram/utils/candle_resampler.py:158-170 | the bucket table has exactly the occupied buckets as keys and under each the candles of that bucket in order |
| Resampler.ResampleCandles | botragram/utils/candle_resampler.py:86-200 | the batch resampler, with its rejections in their order, returns the specified result on every input |
| Resampler.ResampleSelectsFromFold | botragram/utils/candle_resampler.py:158-200 | under any policy the output is the folded candles that pass the closed and minimum-count tests, in order |
| Resampler.ResampleIsFold | botragram/utils/candle_resampler.py:158-200 | without a closed-only cut and with minimum one, accepted input resamples to its fold |
| ResampleProperties.ArrivalOrderIsIrrelevant | botragram/utils/candle_resampler.py:147-200 | accepted candles may arrive in any order that keeps equal open times in place |
| ResampleProperties.ResampleComposes | botragram/utils/candle_resampler.py:86-200 | resampling in two steps is resampling in one whenever the two grids align |
| ResampleProperties.SevenMinutesIntoWeekFails | botragram/utils/candle_resampler.py:46-69 | a one-minute candle on Monday midnight for which going through 7m changes the weekly candle |
| ResampleProperties.CompositionFailsOnlyForWeekOfSevenMinutes | botragram/utils/candle_resampler.py:86-200 | over all accepted non-monthly chains, composition holds for all inputs if and only if the chain is not 1m, 7m, 1w |
| ResampleProperties.ClosedOnlyIsPrefix | botragram/utils/candle_resampler.py:158-178 | closed-only output is the leading part of the full output that has closed by the latest source close |
| Aggregator.RealtimeCandleAggregator.Update | botragram/utils/candle_aggregator.py:114-215 | a refused candle changes nothing; an accepted one opens, extends, replaces or ignores the forming bucket and hands out exactly the closed candle |
| Aggregator.RealtimeCandleAggregator.Flush | botragram/utils/candle_aggregator.py:217-221 | hands out the forming candle once and forgets it |
| Aggregator.Replay | botragram/utils/candle_aggregator.py:114-221 | feeding candles through the object and flushing emits the specified stream, in any arrival order |
| Aggregator.StreamFoldsFreshCandles | botragram/utils/candle_aggregator.py:142-215 | in any arrival order, emitted plus forming candles are the fold of the candles that were not stale on arrival |
| Aggregator.UpdateAnswersTheFold | botragram/utils/candle_aggregator.py:142-215 | in any arrival order, an update answers with the last candle of that fold as the forming one, and hands out the one before exactly when the arrival opened a later bucket |
| Aggregator.CountsTheFormingBucket | botragram/utils/candle_aggregator.py:142-215 | the candle count is the number of non-stale arrivals in the forming bucket |
| Aggregator.StreamRefinesBatch | botragram/utils/candle_aggregator.py:114-221 | on time-ordered input, streaming and flushing equals the batch resampler field for field |
| Aggregator.ClosedOnlyFollowsStream | botragram/utils/candle_resampler.py:158-178 | the closed-only batch is what the stream has emitted, plus the forming candle exactly when its bucket has closed by the latest source close |
| Aggregator.StreamIsSafeInAnyOrder | botragram/utils/candle_aggregator.py:142-215 | between resets and in any order: one candle per bucket in strictly increasing time, volume of the non-stale candles conserved, candle geometry preserved |
| CandleClose.DelayNeverCorrected | botragram/app/runtime/trading_runner.py:1878-1893 | the correction branch is dead and the delay lies in (buffer, buffer + interval] |
| CandleClose.WakesAtCloseUnlessWeekly | botragram/app/runtime/trading_runner.py:1878-1893 | waking after the delay is the close of the resampler's current bucket plus the buffer if and only if the interval is not the week |
| RuntimeControl.TradingRuntimeControl.Resume | botragram/app/runtime/runtime_control.py:237-272 | activates or refuses with the first failing requirement, changing nothing else |
| RuntimeControl.TradingRuntimeControl.ResumeGlobalCycle | botragram/app/runtime/runtime_control.py:274-291 | activates without contexts behind reservations and protection only |
| RuntimeControl.TradingRuntimeControl.BeginRiskLimitChange | botragram/app/runtime/runtime_control.py:293-302 | reserves the runtime only while paused, idle and unreserved |
| RuntimeControl.TradingRuntimeControl.BeginOperatorExit | botragram/app/runtime/runtime_control.py:334-343 | reserves the runtime only while paused, idle and unreserved |
| RuntimeControl.TradingRuntimeControl.BeginCycle | botragram/app/runtime/runtime_control.py:619-625 | takes the cycle lock unless another owner holds the runtime |
| RuntimeControl.TradingRuntimeControl.SelectSymbol | botragram/app/runtime/runtime_control.py:365-386 | rewrites a single context and the setup, leaving the authorization as it was |
| RuntimeControl.TradingRuntimeControl.SelectInterval | botragram/app/runtime/runtime_control.py:388-408 | rewrites a single context and the setup, leaving the authorization as it was |
| RuntimeControl.TradingRuntimeControl.SelectStrategy | botragram/app/runtime/runtime_control.py:410-443 | rewrites every context and the setup, leaving the authorization as it was |
| RuntimeControl.TradingRuntimeControl.SetRuntimeContexts | botragram/app/runtime/runtime_control.py:158-173 | installs distinct-symbol contexts, forgets a pending reconciliation and an authorization for other contexts, and resets the single-context confirmations unless there is exactly one |
| RuntimeControl.EveryRunIsExclusive | botragram/app/runtime/runtime_control.py:237-349 | after any interleaving of calls at most one of cycle, limit change and operator exit is in progress, and either reservation implies paused |
| RuntimeControl.ActivationIsGuarded | botragram/app/runtime/runtime_control.py:237-291 | a paused runtime becomes active if and only if one of the two resume calls passes protection, reservations and its own authorization or configuration test |
| RuntimeControl.UnprotectedStaysPaused | botragram/app/runtime/runtime_control.py:237-291 | without verified protection no sequence of other calls activates the runtime |
| RuntimeControl.DriftExactlyBySelection | botragram/app/runtime/runtime_control.py:365-443 | authorization and contexts come apart exactly by a selection that changes a context, under the conditions each selection checks |
| RuntimeControl.DriftBlocksResume | botragram/app/runtime/runtime_control.py:237-272 | a paused portfolio whose authorization no longer matches cannot be resumed |
| RuntimeControl.StrategyChangeDriftsWhileActive | botragram/app/runtime/runtime_control.py:410-443 | an exactly authorized, running portfolio keeps running after a strategy change leaves it unauthorized |
| RuntimeCalls.RefusalsChangeNothing | botragram/app/runtime/runtime_control.py:158-520 | a refused call changes nothing |
| RuntimeCalls.LocksExactly | botragram/app/runtime/runtime_control.py:293-349 | each of the three locks is taken exactly when it is free to take, released exactly by its own call, and touched by no other |
| RuntimeCalls.ConfirmationsExactly | botragram/app/runtime/runtime_control.py:351-443 | each startup confirmation is given exactly by its own call while nothing is locked, and taken back only by contexts that are not single |
| RuntimeCalls.StreamExactly | botragram/app/runtime/runtime_control.py:572-604 | the stream is on as last set, and counts the positive ticks since it was switched on |
| RuntimeCalls.SelectionsTakeEffect | botragram/app/runtime/runtime_control.py:365-443 | an accepted selection is what the runtime trades by from then on, leaves the other two alone, and reports whether it changed anything |
| RuntimeCalls.ContextsAreInstalledExactly | botragram/app/runtime/runtime_control.py:158-173 | contexts are installed exactly when their symbols differ, and an authorization survives exactly if it names them |
| RuntimeCalls.OwnershipExactly | botragram/app/runtime/runtime_control.py:179-235 | authorizations and pending reconciliations are taken exactly for the contexts in place |
| RuntimeCalls.SetupStartsTheRuntime | botragram/app/runtime/runtime_control.py:237-272 | from every idle, unreserved and protected control without contexts, an operator's confirmations, selections, stream and first tick make a resume succeed with what was selected |
| RuntimeSystem.EveryRunIsCoherent | botragram/app/runtime/runtime_control.py:293-349 | over every interleaving of runner, limit service and calls, the locks match who runs and every capacity reading of the running cycle is the limit in force |
| RuntimeSystem.OneLimitPerCycle | botragram/app/runtime/runtime_limited_autonomous_live_executor.py:30-33 | two capacity checks of one cycle never see different limits |
| RuntimeSystem.LimitMovesOnlyBetweenCycles | botragram/services/runtime/runtime_risk_limit_service.py:86-119 | a limit changes only when a saved update finishes, while the runtime is paused with no cycle and no operator exit |
| RuntimeSystem.CyclesStartExactlyWhen | botragram/app/runtime/runtime_control.py:619-653 | in every reachable state a runner with something to run, health permitting, starts a cycle when it looks if and only if the runtime is active and once woken if and only if nothing is reserved; the rest of a batch always follows, and no other step starts one |
| RuntimeSystem.PauseDoesNotStopAWokenCycle | botragram/app/runtime/runtime_control.py:619-653 | from every idle, paused and protected runtime, a resume followed at once by a pause still leads to a cycle, if there is one to run, that runs while paused |
| RuntimeSystem.RunnerExactly | botragram/app/runtime/runtime_control.py:619-653 | where the runner is after each step: looking, waiting, woken or in a cycle |
| RuntimeSystem.ReadingsExactly | botragram/app/runtime/runtime_limited_autonomous_live_executor.py:30-33 | a cycle reads the limit in force at every capacity check, from nothing on |
| RuntimeSystem.LimitExactly | botragram/services/runtime/runtime_risk_limit_service.py:86-119 | a limit is written from its reservation until it is saved or given up, and moves exactly when saved |
| LiveCycle.LiveCycleExecutor.ExecuteGlobalReport | botragram/app/runtime/autonomous_live_cycle_executor.py:301-450 | the cycle's outcome, claims, stalking calls and call order are the specified ones on every tape |
| LiveCycleOutcomes.ExecutionsAreApproved | botragram/services/execution/autonomous_live_entry_intent_service.py:43-80 | on every tape, everything a cycle executes is the evaluated signal of one of its candidates, whose decision was to execute with risk approved, on an authorized executor |
| LiveCycleOutcomes.RunsExactlyWhenApproved | botragram/app/runtime/autonomous_live_cycle_executor.py:349-410 | a candidate is executed if and only if there is room, no throttling before or after, its claim is new, and its decision is approved and can become an intent |
| LiveCycleOutcomes.RefusalsSayWhy | botragram/app/runtime/autonomous_live_cycle_executor.py:366-408 | a newly claimed candidate that is not executed reports risk rejection, missing authorization or the rate limit, each exactly when that is the reason |
| LiveCycleOutcomes.UnclaimedSayWhy | botragram/app/runtime/autonomous_live_cycle_executor.py:349-365 | a candidate not claimed anew stops the cycle for capacity or rate limit, fails it, or reports a replay |
| LiveCycleOutcomes.ExecutionsReportHowTheyWent | botragram/app/runtime/autonomous_live_cycle_executor.py:410-441 | an execution reports its own status and order; a protected entry is adopted and continues exactly with room, a blocked or unsafe one aborts, any other continues as before |
| LiveCycleOutcomes.SetupsAreDroppedExactlyWhenTurnedDown | botragram/app/runtime/autonomous_live_cycle_executor.py:376-432 | a stalking setup is invalidated exactly when its newly claimed candidate was turned down |
| LiveCycleOutcomes.StalkingIsAsTold | botragram/app/runtime/autonomous_live_cycle_executor.py:324-425 | however a cycle ends, the stalking service is as it was last told |
| LiveCycleSafety.EntriesAreCleared | botragram/app/runtime/autonomous_live_cycle_executor.py:301-450 | whatever the providers answer and however the cycle ends, every execution had room under the limit last read for the last portfolio a reconciliation returned, no throttling, an authorized intent and a new claim |
| LiveCycleSafety.EntersAfterFailedReadExactlyWhen | botragram/app/runtime/autonomous_live_cycle_executor.py:308-322 | on every tape, an execution follows a failed reconciliation if and only if the one after an early exit failed and nothing has been reconciled since |
| LiveCycleSafety.FailedExitReadStillEnters | botragram/app/runtime/autonomous_live_cycle_executor.py:308-322 | a tape on which a position is opened although the reconciliation after the exit failed |
| LiveCycleSafety.CycleIsSafe | botragram/app/runtime/autonomous_live_cycle_executor.py:301-450 | when risk evaluation keeps the candle it was asked about, every execution is cleared, claimed anew on the very candle executed, and never repeated |
| LiveCycleSafety.CyclesAreSafe | botragram/app/runtime/autonomous_live_cycle_executor.py:301-450 | the same over any number of cycles sharing the persistent claims |
| LiveCycleSafety.NoCandleRunsTwice | botragram/app/runtime/autonomous_live_cycle_executor.py:360-408 | under that assumption no closed candle is executed twice, in one cycle or across cycles |
| LiveCycleSafety.OldClaimsNeverRun | botragram/app/runtime/autonomous_live_cycle_executor.py:360-366 | under that assumption a candle claimed before the cycle, by an earlier process too, is not executed |
| LiveCycleSafety.RunsClaimedCandleExactlyWhenKept | botragram/app/runtime/autonomous_live_cycle_executor.py:360-408 | a submitted candidate is executed under its own new claim if and only if its evaluation kept the candle |
| LiveCycleSafety.StrayEvaluationsRunOneCandleTwice | botragram/app/runtime/autonomous_live_cycle_executor.py:360-408 | without that, two claimed candidates can execute one third candle twice in a cycle, although nobody claimed it |
| LiveCycleReports.ReportsAreConsistent | botragram/app/runtime/autonomous_live_cycle_executor.py:83-107 | no cycle builds a report its constructor refuses, and capacity and rate-limit stops exclude each other |
| LiveCycleReports.ResultsAnswerSignals | botragram/app/runtime/autonomous_live_cycle_executor.py:346-450 | results answer a prefix of the discovered signals in order, all of them when no stop flag is set |
| LiveCycleReports.ReportTellsWhatRan | botragram/app/runtime/autonomous_live_cycle_executor.py:360-450 | over one completed cycle, every execution is the candle of a reported result and every result marked executed has its execution |
| LiveCycleReports.UnsafeSubmissionReportsNothing | botragram/app/runtime/autonomous_live_cycle_executor.py:405-441 | an aborted cycle hands on all gathered results if and only if it did not end at a blocked or unsafe submission; if it did, it had some and hands on none |
| LiveCycleReports.UnsafeSubmissionLosesAnEntry | botragram/app/runtime/autonomous_live_cycle_executor.py:405-441 | an executed and protected entry disappears when the next submission is blocked or unsafe |
| LiveCycleReports.StalkingPausedExactlyWhenFull | botragram/app/runtime/autonomous_live_cycle_executor.py:308-450 | when all its capacity checks read one limit, a normal return leaves stalking paused if and only if the last reconciled portfolio is full |
| LiveCycleReports.StalkingFollowsUnderTheControl | botragram/app/runtime/runtime_limited_autonomous_live_executor.py:30-33 | the same for every cycle whose capacity checks are the readings of a reachable state of the control and its clients |
| DiscoveryTelemetry.PublishesWhatHappened | botragram/app/runtime/global_discovery_telemetry.py:120-196 | a completed cycle publishes skipped for capacity if and only if it was full before discovery, rate limited if and only if one of its throttle checks answered yes, and otherwise what was scanned with one candidate per signal |
| DiscoveryTelemetry.CompletedCycleShows | botragram/app/runtime/global_discovery_telemetry.py:120-196 | after a completed cycle the snapshot shows each signal in order with its symbol, direction, confidence and outcome, its own with distinct symbols, the batch's sizes and ranks, and the deadline |
| DiscoveryTelemetry.CompletedCycleReportsDiscovery | botragram/app/runtime/autonomous_live_cycle_executor.py:324-345 | a completed cycle reports the discovered batch and signals exactly when it had room and no throttling |
| DiscoveryTelemetry.AbortedCycleShows | botragram/app/runtime/global_discovery_telemetry.py:198-228 | after an aborted cycle the snapshot shows exactly the results handed on with the abort |
| DiscoveryTelemetry.FailedCycleShows | botragram/app/runtime/global_discovery_telemetry.py:198-228 | after a cycle that raised the snapshot shows a failure without candidates |
| DiscoveryTelemetry.EverySignalHasAnOutcome | botragram/app/runtime/global_discovery_telemetry.py:245-283 | every discovered signal is published with an outcome, and with distinct symbols it is its own result's reason or the reason the cycle stopped |
| DiscoveryTelemetry.CycleReportsAreAccepted | botragram/app/runtime/global_discovery_telemetry.py:135-144 | no report of the cycle is refused |
| DiscoveryTelemetry.RoundsSayHowTheyEnded | botragram/app/runtime/trading_runner.py:1489-1536 | after any rounds every start is counted, a deadline is published if and only if waiting, a scan is shown in progress if and only if scanning, as a round refused the cycle lock leaves it, and the state is the one the last ending leaves, which without a recovery to call is the one before it |
| RuntimeHealth.PolicyMeansAuthoritative | botragram/app/runtime/live_runtime_recovery_policy.py:61-106 | on observed health, ready and converged hold exactly for a protected runtime, paused or active, with authoritative ownership of every position or authoritatively none |
| RuntimeHealth.ReadyActivatesUnlessReserved | botragram/app/runtime/trading_runner.py:988-997 | a ready runtime activates if and only if no reservation is held, and then converges on the same facts |
| RuntimeHealth.StatusExactly | botragram/services/runtime/live_runtime_health_service.py:101-260 | what each observed status stands for |
| RuntimeHealth.ReasonExactly | botragram/services/runtime/live_runtime_health_service.py:101-260 | which of several troubles an observed snapshot names |
| RuntimeHealth.PolicyExactly | botragram/app/runtime/live_runtime_recovery_policy.py:36-106 | what the policy's three questions ask of any snapshot |
| Recovery.UnattendedRecovery.Recover | botragram/app/runtime/trading_runner.py:736-816 | the loop ends as specified on every tape, through the specified control at every await, with the outage cleared |
| Recovery.UnattendedRecovery.Evaluate | botragram/app/runtime/trading_runner.py:870-941 | one convergence decision: activation, fail-closed fallback, retry or give up |
| RecoveryOutcomes.PassEndsExactly | botragram/app/runtime/trading_runner.py:756-941 | over observed health: a pass recovers if and only if the provider restored a protected, unreserved and authoritative runtime that stays so once activated; it gives up exactly when stopped, or when what it restored is reserved or beyond repair; it raises exactly on a fatal error; and goes on otherwise, each with the stated control |
| RecoveryOutcomes.RecoveryEndsExactly | botragram/app/runtime/trading_runner.py:736-816 | the first pass that does not go on decides: the loop recovers if and only if that pass succeeds, with the provider's runtime activated and nothing else changed |
| RecoveryOutcomes.GoesOnExactly | botragram/app/runtime/trading_runner.py:756-815 | the loop goes on exactly past pending reseeds, failed and transient attempts, and restorations that may yet be repaired |
| RecoveryOutcomes.UndecidedKeepsTrying | botragram/app/runtime/trading_runner.py:756-815 | while every pass goes on the loop is still trying |
| RecoveryOutcomes.GoodPassRecovers | botragram/app/runtime/trading_runner.py:870-907 | one good pass is enough |
| RecoveryOutcomes.OutageStartsClosed | botragram/app/runtime/trading_runner.py:736-816 | an outage is closed before anything else, and ends there exactly when told to stop |
| Recovery.RecoveryIsFailClosed | botragram/app/runtime/trading_runner.py:736-941 | as long as the provider never un-pauses and nobody resumes in a wait with protection verified, the runtime is paused at every moment of every wait, inside the recovery calls too, and after every exit but success, and success means active, protected, unreserved and converged |
| Recovery.UndisturbedOrBehavedRecoveryIsFailClosed | botragram/app/runtime/trading_runner.py:736-868 | in particular whenever nobody resumes at all, whatever the passes do with protection; and, however others resume, whenever every pass keeps protection unverified at its awaits and after a failure |
| Recovery.SuccessNeedsActivation | botragram/app/runtime/trading_runner.py:870-907 | under that condition success comes only from a pass whose recovery reported success, left a ready substrate and was activated there, with nothing else changed |
| Recovery.ObservedSuccessIsAuthoritative | botragram/app/runtime/live_runtime_recovery_policy.py:87-106 | under that condition and with health read off the control, success means exact authorization and no pending reconciliation, or no positions |
| Recovery.VouchingFailureLetsOperatorReopen | botragram/app/runtime/trading_runner.py:849-868 | if a failed recovery leaves protection verified, the runtime control lets a resume during the next wait activate entry mid-outage |
| RecoveryProvider.PreparingIsDutifulUnlessItVouches | botragram/services/recovery/runtime_recovery_service.py:173-229 | from every closed control a pass keeps protection unverified at its awaits and after a failure if and only if neither the operator exit nor the entry it finishes, nor the portfolio it finds, makes it verify protection early or for a failure, each case read off the outcomes |
| RecoveryProvider.VerdictExactly | botragram/services/recovery/runtime_recovery_service.py:173-229 | a pass reports success, a transient or a fatal failure exactly as the outcomes of exit, entry and portfolio say |
| RecoveryProvider.RecoveryThroughProviderIsFailClosed | botragram/app/runtime/trading_runner.py:736-868 | unattended recovery through this provider is fail-closed at every await and every exit but success, whatever its passes find, as long as in each pass nobody resumes at all, or nobody else vouches and nobody resumes in the waits with protection verified |
| RecoveryProvider.SafePassIsAttended | botragram/services/recovery/runtime_recovery_service.py:173-229 | that holds of every pass called on a closed runtime that verifies nothing early or for a failure, whoever resumes |
| RecoveryProvider.ResumeDuringStreamsReopens | botragram/services/runtime/live_runtime_portfolio_reconciliation_service.py:152-199 | from every closed, unreserved runtime a pass that finds a single position, whatever it comes to, lets a resume during the wait for its stream activate the runtime mid-recovery |
| RecoveryProvider.ActivatingIsDutifulUnlessItLeavesOpen | botragram/services/recovery/runtime_recovery_service.py:173-229 | asked to activate, a pass un-pauses only together with success and leaves protection unverified when the loop goes on, if and only if it does not leave the runtime open: by an empty portfolio without entry authority, an entry finished on an unsupported market, or an unsettled exit after which the control is active, or protected for a loop that goes on |
| RecoveryProvider.LeavingOpenMeansLeavingVerified | botragram/services/position/operator_exit_service.py:507-569 | leaving it open means that the last of the pass's own calls verified protection, or that somebody resumed while an unsettled exit had it verified; and unless others withdraw protection, verifying it last leaves it open |
| RecoveryProvider.RestoredPassIsExact | botragram/services/runtime/live_runtime_portfolio_reconciliation_service.py:178-198 | a pass that reports success leaves exactly the portfolio it found, exactly authorized and with protection verified, or an empty one that may be entered, whatever others did to the contexts during its waits |
| RecoveryProvider.ActivationSucceedsUnlessReserved | botragram/services/recovery/runtime_recovery_service.py:203-229 | asked to activate, a restoring pass succeeds exactly when nothing is reserved, activating what it restored and nothing else |
| RecoveryProvider.ActualExactly | botragram/services/runtime/live_runtime_portfolio_reconciliation_service.py:184-189 | a portfolio is displaced, and its adoption fails for good, exactly when the control no longer has its contexts after the wait for its streams |
| RecoveryProvider.OperationThroughProviderIsFailClosed | botragram/app/runtime/trading_runner.py:1021-1151 | over any passes none of which leaves the runtime open, operational recovery reports success if and only if it leaves the runtime active |
| Recovery.HandleFailure | botragram/app/runtime/trading_runner.py:1021-1085 | the operational loop pauses first and ends as specified on every tape, counting its attempts |
| RecoveryOutcomes.OperationEndsExactly | botragram/app/runtime/trading_runner.py:1021-1151 | operational recovery is refused at the first fatal error, restarted at the first success that leaves the runtime active, or stopped, whichever comes first, with every pass counted |
| RecoveryOutcomes.OperationStaysPending | botragram/app/runtime/trading_runner.py:1021-1151 | it stays pending while none of these happens |
| RecoveryOutcomes.GateExactly | botragram/app/runtime/trading_runner.py:1021-1100 | operational recovery closes the runtime first and is refused, stopped or started exactly as its gate says |
| RecoveryOutcomes.HealthRecoveryExactly | botragram/app/runtime/trading_runner.py:686-734 | what each of the two recoveries reports for a health failure, which attempts it keeps and when it waits for the cadence |
| Recovery.OperationalIsFailClosed | botragram/app/runtime/trading_runner.py:1021-1085 | operational recovery reports success if and only if it leaves the runtime active |
| Recovery.HealthRecoveryIsFailClosed | botragram/app/runtime/trading_runner.py:696-734 | whichever recovery a health failure selects, under the condition of either loop it reports success if and only if the runtime is left active, except exactly where unattended recovery is called for without a provider: then an active runtime is left as it was |
| Recovery.UnownedExposureNeverReopens | botragram/app/runtime/trading_runner.py:696-734 | blocked health, or positions without exact authorization, never reopen automatically |
| RecoveryOutcomes.UnattendedExactlyWhenOwned | botragram/app/runtime/live_runtime_recovery_policy.py:43-60 | observed health is recovered unattended if and only if something repairable is wrong, no reconciliation blocks it, and there are no positions or they are exactly owned |
| RunLoop.RunUntilDone | botragram/app/runtime/trading_runner.py:528-680 | the loop's outcome and failure count on every sequence of turns |
| RunLoop.FirstFatalTurnDecides | botragram/app/runtime/trading_runner.py:557-671 | the loop raises exactly at the first failure that brings the failures since the last clearing turn to the maximum, or at an outage whose recovery raises and then at the lower count reached, and keeps running otherwise |
| RunLoop.RaisingRecoveryEndsTheLoopAtAnyCount | botragram/app/runtime/trading_runner.py:626-645 | after any surviving run an outage whose recovery raises ends the loop at the count reached |
| RunLoop.CountsConsecutiveUnlessForgotten | botragram/app/runtime/trading_runner.py:592-599 | the count exceeds the failures in a row if and only if a market-wide cycle completed with failures on the books and nothing has cleared them since |
| RunLoop.BatchesCountConsecutively | botragram/app/runtime/trading_runner.py:601-605 | a loop without market-wide cycles counts exactly consecutive failures |
| RunLoop.MarketWideRuntimeCountsEveryFailure | botragram/app/runtime/trading_runner.py:592-599 | a market-wide runtime without outages counts all failures since its start |
| RunLoop.IsolatedFailuresStopTheRuntime | botragram/app/runtime/trading_runner.py:646-661 | for every maximum above one, isolated failures with any number of completed cycles between them end the runtime |
| Scheduler.ContextCycleScheduler.MarkCompleted | botragram/app/runtime/context_cycle_scheduler.py:35-49 | the completed contexts, and no others, are rescheduled by their cadence |
| Scheduler.ContextCycleScheduler.Prune | botragram/app/runtime/context_cycle_scheduler.py:63-68 | exactly the owned contexts keep their schedule |
| Scheduler.RunRound | botragram/app/runtime/trading_runner.py:1451-1473 | one round starts the due contexts and reschedules them only when the whole batch finished |
| Scheduler.EligibleKeepsOrder | botragram/app/runtime/context_cycle_scheduler.py:22-33 | selecting due contexts commutes with concatenation, so batches keep the original order and multiplicity |
| Scheduler.DeadlineIsFirstDue | botragram/app/runtime/context_cycle_scheduler.py:51-61 | some owned context is due at an instant if and only if the next deadline is not after it |
| Scheduler.IdleRoundsDoNotRepeat | botragram/app/runtime/trading_runner.py:1814-1826 | an idle round has a strictly later deadline, and the next round with the same contexts starts something if and only if that deadline has come |
| Scheduler.ScheduleIsLastCompletion | botragram/app/runtime/trading_runner.py:1370-1383 | over every run, the schedule holds exactly the last completion plus cadence of each context owned ever since |
| Scheduler.StartsExactlyWhenCadencePassed | botragram/app/runtime/trading_runner.py:1451-1473 | over every run, a context is in the next batch if and only if it is owned, the batch is authorized and its cadence since its last completion has passed |
| Scheduler.NeverEarly | botragram/app/runtime/trading_runner.py:601-605 | while a context stays owned it never starts before any earlier completion plus its cadence |
| Scheduler.FailedBatchIsDueAgain | botragram/app/runtime/trading_runner.py:668-671 | every context a failed batch had started is due again at once |
| ExceptionChain.WalkExceptionChain | botragram/utils/connectivity.py:89-104 | the worklist loop yields the specified walk of the links, on any finite graph |
| ExceptionChain.IsTransientConnectivityError | botragram/utils/connectivity.py:53-86 | true if and only if some reachable exception is transient |
| ExceptionChain.TransientExactly | botragram/utils/connectivity.py:28-86 | the statuses, return codes, flags and network errors that make one exception transient |
| ExceptionChain.WalkYieldsNothingTwice | botragram/utils/connectivity.py:89-104 | no exception is yielded twice |
| ExceptionChain.WalkYieldsWhatIsReachable | botragram/utils/connectivity.py:89-104 | an exception is yielded if and only if it is reachable, cycles included |
| ExceptionChain.WalkIsDepthFirst | botragram/utils/connectivity.py:89-104 | the worklist walk is the recursive depth-first traversal, causes before contexts |
| ExceptionChain.HandlingAnOutageTaints | botragram/utils/connectivity.py:89-104 | an error raised while a connectivity error is handled, and so linked to it as its context, is classified as transient whatever it is |
| UserDataStream.LiveFuturesUserDataService.HandleEvent | botragram/app/runtime/live_futures_user_data_service.py:221-237 | one event takes the service, cache and startup through the specified states, at each await as well |
| UserDataStream.LiveFuturesUserDataService.ReseedUnseededPositions | botragram/app/runtime/live_futures_user_data_service.py:310-325 | a reseed is resyncing while it asks, and ready only once REST has confirmed |
| UserDataStream.LiveFuturesUserDataService.Apply | botragram/services/account/live_futures_user_data_cache.py:139-171 | one stream update overlays the open positions and reports those REST never seeded |
| UserDataStream.LiveFuturesUserDataService.ConsumeForever | botragram/app/runtime/live_futures_user_data_service.py:221-259 | the reconnect loop over any sessions, settling the startup future at most once |
| UserDataStream.ReadyIsFresh | botragram/app/runtime/live_futures_user_data_service.py:221-325 | at every event and every await, ready means an authoritative REST read succeeded since the last handled interruption |
| UserDataStream.SessionsStartUnready | botragram/app/runtime/live_futures_user_data_service.py:238-259 | after a handled interruption the service is never ready until it reads again |
| UserDataStream.ReadyHidesNoExposure | botragram/app/runtime/live_futures_user_data_service.py:230-325 | while ready, every open position the stream has reported is one REST has confirmed |
| StreamExposure.ReadyMeansConfirmed | botragram/app/runtime/live_futures_user_data_service.py:221-325 | over all sessions, at every event: while ready, every position the stream last said to be open since the last REST answer was open in that answer and has not been closed since |
| StreamExposure.CacheIsWhatWasConfirmed | botragram/services/account/live_futures_user_data_cache.py:92-169 | over all sessions, at every event, the cached positions are exactly those the last REST answer had open and the stream has not closed since |
| StreamExposure.SessionSurvivesExactlyWhenConfirmed | botragram/app/runtime/live_futures_user_data_service.py:221-325 | a session survives an event exactly when REST confirms what the event makes it ask about |
| StreamExposure.UnseededExactly | botragram/services/account/live_futures_user_data_cache.py:139-169 | an update reports exactly the symbols it opens while absent from the confirmed positions or closed earlier in the same update |
| StreamExposure.ReadyCacheIsPublished | botragram/app/runtime/live_futures_user_data_service.py:261-325 | while the service is ready so is its cache |
| UserDataStream.ReseedReadyExactlyWhenConfirmed | botragram/app/runtime/live_futures_user_data_service.py:310-325 | a reseed reaches ready if and only if REST answers with an open position for every unseeded symbol |
| UserDataStream.StartupIsAnsweredOnce | botragram/app/runtime/live_futures_user_data_service.py:261-285 | startup keeps its first answer, succeeds only with a seeded snapshot, and is answered before the loop gives up |
| UserDataStream.EventBookkeeping | botragram/app/runtime/live_futures_user_data_service.py:221-325 | an answered connection ends the outage, resets the attempts and answers startup, a refused one fails it, and each failure is as transient as the REST failure behind it |
| UserDataStream.AttemptsCountSessions | botragram/app/runtime/live_futures_user_data_service.py:221-259 | sessions without an answered connection are counted as attempts of one outage |
| UserDataStream.SessionEndsTheLoopExactlyWhen | botragram/app/runtime/live_futures_user_data_service.py:238-259 | a session ends the loop exactly when the service is closed, or when it fails for good before anything was seeded |
| StalkingSetups.SetupStalkingService.RegisterCandidate | botragram/services/discovery/setup_stalking_service.py:276-507 | registers, returns the active setup, or refuses for pause, replay, capacity or bad geometry, keeping the book well formed |
| StalkingSetups.SetupStalkingService.OnCandleUpdate | botragram/services/discovery/setup_stalking_service.py:554-895 | one candle takes a setup to its specified next state, and a stale or foreign one changes nothing |
| StalkingSetups.SetupStalkingService.ResetTriggeredToStalking | botragram/services/discovery/setup_stalking_service.py:954-1002 | only a triggered setup is reset, to stalking or, at the end of its window, to expired |
| StalkingPrices.LongProgressExactly | botragram/services/discovery/setup_stalking_service.py:630-895 | a long setup in its window is invalidated by a low under its invalidation price, triggered by a bounce at its target once confirmed, expired at its last bar, and otherwise stays, exactly |
| StalkingPrices.LongConfirmationExactly | botragram/services/discovery/setup_stalking_service.py:697-800 | exactly which candles confirm a long setup, and what price each field then takes |
| StalkingPrices.LongRegistrationExactly | botragram/services/discovery/setup_stalking_service.py:392-452 | exactly which long candidates are registered, and with which target and invalidation |
| StalkingPrices.RegisteredAsGiven | botragram/services/discovery/setup_stalking_service.py:454-480 | what a registered setup carries over from its candidate and candle |
| StalkingPrices.ShortProgressExactly | botragram/services/discovery/setup_stalking_service.py:651-866 | a short setup is invalidated above its invalidation price and triggered by the mirror image of the bounce |
| StalkingPrices.CandleMirrors | botragram/services/discovery/setup_stalking_service.py:630-895 | a short setup meets a candle exactly as a long one meets its mirror image |
| StalkingPrices.RegistrationMirrors | botragram/services/discovery/setup_stalking_service.py:276-480 | and is registered exactly as a long one is on the mirror image |
| StalkingPrices.CandleUpdateExactly | botragram/services/discovery/setup_stalking_service.py:554-895 | which setups a candle meets, that it expires a triggered one with its window used up, and that it changes nothing else |
| StalkingPrices.EndingsExactly | botragram/services/discovery/setup_stalking_service.py:929-1027 | ending a setup files its new progress alone, and only a trigger can be taken back |
| StalkingPrices.PausingExactly | botragram/services/discovery/setup_stalking_service.py:249-266 | pausing forgets every setup once, and resuming forgets none |
| StalkingSafety.ZoneTargetIsInside | botragram/services/discovery/setup_stalking_service.py:392-452 | a zone is registered only with its retest target strictly inside its invalidation price and its stop beyond the setup candle |
| StalkingSafety.ZoneGeometryIsFixed | botragram/services/discovery/setup_stalking_service.py:697-743 | a zone keeps its target, invalidation and stop through any number of candles, its confirmation included |
| StalkingSafety.ConfirmationAimsInsideBody | botragram/services/discovery/setup_stalking_service.py:697-743 | any other confirmation moves the target into the confirming candle's body, invalidation to its extreme, and never tightens the stop |
| StalkingSafety.EntryTargetIsProfitable | botragram/services/discovery/setup_stalking_service.py:1041-1104 | the entry's take-profit lies beyond the entry price unless it was inverted with entry at the stop, and a plan of 1.5 times the risk still pays at least the actual risk |
| StalkingSafety.StalkingEnds | botragram/services/discovery/setup_stalking_service.py:630-895 | every new candle a setup survives costs one bar, so it ends within its window |
| StalkingSafety.HistoryIsBounded | botragram/services/discovery/setup_stalking_service.py:1111-1125 | pruning keeps every stalking setup and at most ten that are not stalking, triggered ones included, dropping one only when ten later ones exist |
| StalkingSafety.PruningKeepsTheTenLatest | botragram/services/discovery/setup_stalking_service.py:1111-1125 | of the setups not stalking pruning keeps all up to ten, and otherwise exactly the ten updated last |
| StrategyService.StrategyService.GenerateSignal | botragram/services/strategy_service.py:137-472 | the signal and the setups after it are the specified ones for every engine |
| EntrySignals.EntersExactlyWhenPresented | botragram/services/discovery/setup_stalking_service.py:1041-1104 | a call enters if and only if its candle retests a confirmed setup in prices, guards and zone pass, and confluence lets through the one entry the setup and the candle determine: bought when long, sold when short, at the close, behind the setup's stop, towards the planned target or one that pays the planned multiple of the actual risk |
| EntrySignals.RefusedTriggersSayWhy | botragram/services/strategy_service.py:171-325 | a triggered setup that does not enter is taken back or dropped, and the hold says which check refused it |
| EntrySignals.WaitingSaysWhy | botragram/services/strategy_service.py:360-420 | a watched setup that is not triggered says whether it ended, waits for its reversal or for its retest, and only the candle changes it |
| EntrySignals.ScanningSaysWhy | botragram/services/strategy_service.py:380-466 | without a watched setup the hold says whether a candidate was found and registered |
| EntrySignals.RegistersExactly | botragram/services/discovery/setup_stalking_service.py:276-361 | a symbol is registered exactly when stalking is on, no live setup holds it, the candle is new, capacity is left and the zone makes sense |
| StalkingSafety.TriggerIsRetest | botragram/services/discovery/setup_stalking_service.py:651-866 | a candle triggers a setup if and only if it was confirmed, within its window, not breached and retested |
| StalkingSafety.EntryExactlyWhenTriggeredAndPassed | botragram/services/strategy_service.py:171-325 | an entry comes if and only if this candle moved a confirmed setup from stalking to triggered and guards, zone, target clamp and confluence passed |
| StalkingSafety.HoldTriggersNothing | botragram/services/strategy_service.py:171-466 | a call that enters nothing leaves no setup triggered that was not triggered before, and other symbols keep their live setups |
| StalkingSafety.UnexecutedTriggerBlocksItsSymbol | botragram/services/strategy_service.py:360-466 | on a triggered setup every call holds and changes nothing, although the setup service would expire it at the next candle |
| StalkingSafety.TriggerBlocksExactlyUntilRemoved | botragram/services/strategy_service.py:360-466 | over every run, a triggered setup stays as it is exactly until it is consumed, invalidated, cleared by a pause, or pushed out by a registration for another symbol when ten others, no longer stalking, were updated since, and until then every call on its symbol holds |
| StalkingSafety.CapacityIsKept | botragram/services/discovery/setup_stalking_service.py:346-361 | over every run of calls, executions, rejections and pauses the stalking setups never exceed capacity |
| StalkingSafety.EntryWasRegisteredEarlier | botragram/services/strategy_service.py:380-466 | over every run, an entry follows an earlier call that registered its symbol on an earlier candle |
| StalkingSafety.NoCandleEntersTwice | botragram/services/strategy_service.py:171-325 | over every run fed in order, successive entries on a symbol come on strictly later candles |
| Rounding.PrecisionIsLeast | botragram/utils/decimal.py:31-43 | the computed precision is the least number of decimal places that writes the increment exactly |
| Rounding.QuantizeIsExact | botragram/utils/decimal.py:77-81 | the final quantize never changes the value |
| Rounding.StepIsGreatestMultiple | botragram/utils/decimal.py:63-81 | a non-negative quantity is rounded to the greatest multiple of the step not above it, a negative one to the least not below it |
| Rounding.PriceIsNearestMultiple | botragram/utils/decimal.py:84-102 | a price is rounded within half a tick to the nearest multiple, on a tie the one further from zero |
| Rounding.RoundingIsMonotone | botragram/utils/decimal.py:63-102 | both roundings keep order, whatever the increment |
| Rounding.RoundingIsIdempotent | botragram/utils/decimal.py:63-102 | rounding twice gives the decimal that rounding once gives |
| Restart.RuntimeRestartCoordinator.Stage | botragram/app/runtime/market_type_switch.py:116-132 | stages exactly one target, or fails and changes nothing |
| Restart.RuntimeRestartCoordinator.Commit | botragram/app/runtime/market_type_switch.py:134-151 | sets the event only for the staged target, or fails and changes nothing |
| Restart.RuntimeRestartCoordinator.Wait | botragram/app/runtime/market_type_switch.py:158-164 | waiting returns the staged target at once if the event is set, never failing, and blocks otherwise |
| Restart.RuntimeRestartCoordinator.ResumeWait | botragram/app/runtime/market_type_switch.py:158-164 | a released waiter reads the request when it resumes, without looking at the event again |
| Restart.RuntimeRestartCoordinator.Consume | botragram/app/runtime/market_type_switch.py:166-173 | takes a committed target and clears it, or changes nothing |
| Restart.TargetExactly | botragram/app/runtime/market_type_switch.py:95-114 | a request resolves exactly when it names one thing, to that thing |
| Restart.RequestsExactly | botragram/app/runtime/market_type_switch.py:116-151 | staging needs an empty place and one target, committing needs the staged target itself |
| Restart.WaiterExactly | botragram/app/runtime/market_type_switch.py:134-173 | a waiter is blocked by an unset event, released by a commit and gone once it resumes |
| Restart.ConsumedAreStagedInOrder | botragram/app/runtime/market_type_switch.py:116-173 | over every run the consumed targets are the staged ones in order, up to one still pending, and a committed event has a target |
| Restart.ConsumedWasCommitted | botragram/app/runtime/market_type_switch.py:134-173 | whatever can be consumed was the last target staged and was committed after that |
| Restart.WaitingFailsExactlyWhenAllIsConsumed | botragram/app/runtime/market_type_switch.py:158-173 | over every run, reading the request fails if and only if everything staged has been consumed, and otherwise gives the last staged target |
| Restart.FailedResumptionWasOvertaken | botragram/app/runtime/market_type_switch.py:158-173 | a resumption fails only after the commit that released the waiter was followed by a consume |
| Restart.LateWaiterMissesItsRequest | botragram/app/runtime/market_type_switch.py:158-173 | consumed before the waiter resumes, the request is gone, and a later staged one is taken uncommitted |
| Backoff.DelayIsBounded | botragram/utils/retry.py:46-72 | an answer exists if and only if attempt and sample are valid; it lies within the jitter of the base, never above the maximum, and is zero only for full jitter and the lowest sample |
| Backoff.BaseDoubles | botragram/utils/retry.py:60-72 | the base doubles from the initial delay until the maximum caps it or the exponent stops at 63 |
| Backoff.JitterIsSymmetric | botragram/utils/retry.py:60-72 | the middle sample adds no jitter, the lowest takes and the highest adds all of it, up to the maximum |
| Backoff.DelaysNeverShrink | botragram/utils/retry.py:46-72 | under one sample later attempts never wait less, and a base at the maximum stays there |

## Left out

- Exchange REST and WebSocket clients, storage, Telegram, terminal rendering, logging and wiring.
- The monthly interval and its calendar arithmetic; the branch for intervals of no length.
- Rounding of decimal arithmetic to 28 digits and of floats: prices, quantities and times are exact.
- Bucket times of fractional instants before 1970, which the program truncates toward zero.
- Leverage selection, restoring a stored configuration, and the selector callbacks of the runtime control.
- Normalisation of symbols: names arrive normalised, and a failed normalisation is an input.
- Discovery itself (universe batches, ranking, market filters): its signals are inputs of the cycle.
- Which delay a loop waits: in the loops a wait is a point where other steps may happen.
- The largest floating-point power of two and overflow in retry delays, which are exact numbers here.
- Inside the recovery provider: the paths without portfolio reconciliation, cancellation, and what recovery of entries and operator exits does besides its awaits, its calls on the control and its outcome; the steps of an operator exit may come in any order and number.
- More than one session waiting for a restart at a time.
- Loading the stored risk limit at start; only updates change the limit.
- The number of operational recovery attempts kept by the main loop, which only paces a log line.
- Exceptions raised by observers after a batch has been marked completed.
- Checks of `MarketTypeSwitchService` before staging, which are separated by awaits and promise no atomicity.
- Telemetry counters of the stalking funnel, range checks of the setup record, clearing all setups on request, and equal time stamps: updates are stamped by a counter.
- Side, prices and orders in the private-stream cache: only which positions are open matters for freshness.
- Backtests, indicators, risk evaluation and the signal engine's rules, which are arbitrary functions or inputs here.
- RuntimeControl.EveryRunIsExclusive: speaks of calls; that no code path awaits inside a call is read off the source.
- ExceptionChain.WalkExceptionChain: takes the finite set of exceptions the links stay in as a parameter the program does not have.
