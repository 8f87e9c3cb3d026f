# agent-kernel: verified model of the kernel's safety core

This Dafny project models the in-memory safety core of agent-kernel and proves what it is for:
dispatching each action at most once, replaying events into one true projection, and keeping the
caches, windows and watchdogs around them honest. Check it with `dafny verify dfyconfig.toml`.

| file | models |
|---|---|
| Basics.dfy | options, JSON payloads, decimal text |
| DedupeLedger.dfy | the dispatch dedupe store and its histories |
| DispatchPolicy.dfy | host-kind resolution, remote contracts, static admission |
| TurnEngine.dfy | one turn: six phases over a context and the shared store |
| TurnGate.dfy | when a turn reaches the executor |
| TurnSystem.dfy | any number of turns interleaved at their awaits |
| RunProjection.dfy | the event-sourced run projection |
| EventLog.dfy | the event log with dense offsets and eviction |
| ProjectionCache.dfy | the incremental projection service under interleaved commits |
| TraceRegistry.dfy, TraceWrites.dfy | branch, stage and gate registries, their events and their replay |
| KernelFacade.dfy | the bounded trace cache of the facade |
| FacadeReads.dfy, FacadeWrites.dfy | runs of the facade over a log it reads, and over a log it writes together with others, its own writes in flight |
| RateLimiter.dfy | the sliding-window admission limiter |
| Heartbeat.dfy | the heartbeat monitor and watchdog |
| RunTrace.dfy | the run-trace observer |
| CapabilitySnapshot.dfy | canonical snapshots |
| Checkpoint.dfy | snapshot ids and resume import |

Reading notes:

- Components that update fields in place are classes; each method is proved equal to a step
  function on values, and histories are folds of those functions. Concurrency is a state machine
  whose moves are the stretches between awaits, and every theorem quantifies over all move
  sequences; a move that is not enabled changes nothing.
- Time is an argument. Reasoning loop, snapshot builder, admission, executor and store failures
  are arbitrary answers (`Ports`). A store call that raises leaves the store as it was.
- Event types are read once into `Kind` (`KindOf`). The projection's cancel-text test is modelled,
  and never influences a lifecycle state.
- The turn results need no assumption that policy keys and legacy keys are disjoint: a turn's two
  keys differ as strings, and keys of different turns are kept apart by the store itself.
- Where code and documentation differ the code is followed. The store's docstring graph
  (agent_kernel/kernel/dedupe_store.py:195-198) omits `succeeded` and repeated marks. The rebuild's
  docstring (agent_kernel/adapters/facade/kernel_facade.py:299-301) says present entries are never
  overwritten, but replayed state changes do overwrite them. `max_tracked_runs` bounds the tracked
  runs; a run that is only queried is cached without being tracked.

## Model

| member | source | states |
|---|---|---|
| DedupeLedger.HistoryIsMonotone | agent_kernel/kernel/dedupe_store.py:209-374 | over every call sequence, failing calls included, a record's state only advances, its key, fingerprint and attempt number never change, and a non-empty ack reference never becomes empty |
| DedupeLedger.ConfirmedExcludesUnknown | agent_kernel/kernel/dedupe_store.py:263-337 | in one history a key that is ever acknowledged or succeeded is never in unknown_effect, before or after |
| DedupeLedger.ReservedOnce | agent_kernel/kernel/dedupe_store.py:209-234 | a key has at most one accepted reservation in any history from any ledger |
| DedupeLedger.RecordStemsFromReservation | agent_kernel/kernel/dedupe_store.py:209-234 | in a store that started empty every record still carries the identity of the accepted reservation it stems from |
| DedupeLedger.AtomicReservation | agent_kernel/kernel/dedupe_store.py:339-374 | reserve_and_dispatch equals reserve followed by mark_dispatched, and changes nothing on a duplicate |
| DedupeLedger.InMemoryDedupeStore.DoReserve | agent_kernel/kernel/dedupe_store.py:209-234 | the in-place reserve is one ledger step with its outcome |
| DedupeLedger.InMemoryDedupeStore.DoReserveAndDispatch | agent_kernel/kernel/dedupe_store.py:339-374 | the in-place atomic reservation is one ledger step with its outcome |
| DedupeLedger.InMemoryDedupeStore.DoMarkDispatched | agent_kernel/kernel/dedupe_store.py:236-261 | the in-place transition is one ledger step; an invalid one raises and changes nothing |
| DedupeLedger.InMemoryDedupeStore.DoMarkAcknowledged | agent_kernel/kernel/dedupe_store.py:263-288 | the in-place transition is one ledger step; an invalid one raises and changes nothing |
| DedupeLedger.InMemoryDedupeStore.DoMarkSucceeded | agent_kernel/kernel/dedupe_store.py:290-315 | the in-place transition is one ledger step; an invalid one raises and changes nothing |
| DedupeLedger.InMemoryDedupeStore.DoMarkUnknownEffect | agent_kernel/kernel/dedupe_store.py:317-337 | the in-place transition is one ledger step; an invalid one raises and changes nothing |
| DispatchPolicy.HostsAgree | agent_kernel/kernel/minimal_runtime.py:535-600 | admission resolves the engine's host kind whenever that kind is in admission's own vocabulary, for any tags and payload |
| DispatchPolicy.AdmissionSubsumesEngine | agent_kernel/kernel/minimal_runtime.py:664-679 | every action the engine would block for its idempotency contract is already denied by static admission |
| DispatchPolicy.ContractChecksDiffer | agent_kernel/kernel/turn_engine.py:1316-1352 | the two contract checks disagree exactly for a non-read action that asks for guaranteed, has no contract to carry it, and is cli_process or in_process_python to the engine but remote to admission; there admission blocks alone |
| DispatchPolicy.AdmissionIsStricter | agent_kernel/kernel/minimal_runtime.py:513-532 | a concrete action that admission blocks and the engine does not |
| TurnEngine.KeysDiffer | agent_kernel/kernel/turn_engine.py:1270-1313 | a turn's policy key never equals its own legacy key, for any ids, offset and content hash |
| TurnEngine.RunTurnInPlace | agent_kernel/kernel/turn_engine.py:466-522 | the phase loop on the shared store object computes the turn; no phase assertion fails and the no-result fallback is unreachable |
| TurnEngine.PhaseInPlace | agent_kernel/kernel/turn_engine.py:501-518 | one iteration of the phase loop on the shared store object is one phase of the turn |
| TurnEngine.DedupeInPlace | agent_kernel/kernel/turn_engine.py:699-808 | phase 5 on the store object: legacy check, reservation or degradation, alias mirroring |
| TurnEngine.SettleInPlace | agent_kernel/kernel/turn_engine.py:832-925 | phase 6 after the executor call on the store object: both keys settled, result built |
| TurnEngine.RunFrom | agent_kernel/kernel/turn_engine.py:501-518 | running the phases always ends the turn, by a result or an exception |
| TurnEngine.TurnFollowsAutomaton | agent_kernel/kernel/turn_engine.py:529-925 | the emitted states of every turn are a path of the phase automaton; a returned turn stops in the final state its result names, with that state's outcome |
| TurnGate.ExecutorIsGated | agent_kernel/kernel/turn_engine.py:602-854 | the executor runs at most once, exactly when snapshot, admission, policy and reservation of the own key let it through, or after a store failure only for an announced, downgraded idempotent write |
| TurnGate.ReportNamesTheCall | agent_kernel/kernel/turn_engine.py:995-1027 | the key and fingerprint handed to the executor are those of the store's record and those the result reports, whatever envelope admission proposed |
| TurnGate.RepeatedTurnIsInert | agent_kernel/kernel/turn_engine.py:707-736 | a turn whose legacy key is on record calls no executor and leaves the store unchanged, whatever its snapshot hash |
| TurnGate.TurnLeavesRecords | agent_kernel/kernel/turn_engine.py:744-797 | the keys a turn adds to the store: none unless it is dispatched, then its policy key exactly when the reservation answered and its legacy key exactly when the mirror did too |
| TurnGate.RepeatIsExact | agent_kernel/kernel/turn_engine.py:707-797 | when a dispatched turn can be dispatched again under any later answers: exactly when the legacy key was not recorded or cannot be read, and the policy key is another one, was not recorded, or reservation raises for an idempotent write |
| TurnGate.RepeatsExactlyWhenDegraded | agent_kernel/kernel/turn_engine.py:1169-1202 | run again with the same answers, a dispatched turn reaches the executor again exactly when its reservation raised; lookup, mirror and settlement failures never suffice |
| TurnGate.ReservedTurnDoesNotRepeat | agent_kernel/kernel/turn_engine.py:744-797 | after a turn whose reservation and mirror answered, whatever failed besides, no later run of that run, action and offset that can read the store reaches the executor or changes the store |
| TurnGate.DegradedTurnRepeats | agent_kernel/kernel/turn_engine.py:1169-1202 | when reservation raises for an idempotent write the turn leaves no record, and repeating it makes the same call on the same store |
| TurnSystem.StepKeepsInv | agent_kernel/kernel/turn_engine.py:699-904 | every step of every turn keeps: owned keys are on record and disjoint between turns; without dedupe failures every turn past its dedupe phase is mirrored, and without any store failure its two records agree |
| TurnSystem.AtMostOnceDispatch | agent_kernel/kernel/turn_engine.py:699-854 | for any turns, any starting store and any interleaving: at most one non-degraded executor call per key, and while no dedupe phase met a failing store at most one call per run, action and offset, whatever fails while settling |
| TurnSystem.AliasInStepAndSettled | agent_kernel/kernel/turn_engine.py:776-904 | policy key and legacy alias have the same state at every step and end acknowledged exactly for dispatched turns, unknown_effect otherwise; they stay dispatched exactly when the executor was cancelled or returned no dict |
| TurnSystem.RepeatIsBlocked | agent_kernel/kernel/turn_engine.py:707-764 | in every reachable state where no dedupe phase met a failing store, the dedupe step of a turn whose triple was dispatched blocks it and leaves the store unchanged |
| TurnSystem.SoloTurnIsEngineTurn | agent_kernel/kernel/turn_engine.py:466-522 | scheduled alone, a turn of the interleaved system is exactly the engine's turn |
| RunProjection.ReplayIsCoherent | agent_kernel/kernel/minimal_runtime.py:837-905 | after any event sequence both flags and the recovery mode are functions of the lifecycle state |
| RunProjection.ReadinessIsLifecycle | agent_kernel/kernel/minimal_runtime.py:314-320 | on replayed projections the dispatch-readiness test holds exactly in ready and dispatching |
| RunProjection.ReasonDoesNotSteer | agent_kernel/kernel/minimal_runtime.py:926-956 | projections that differ only in reason, children or offset replay to the same lifecycle, flags and recovery mode, so the cancel-text test never decides a state |
| RunProjection.TerminalAbsorbs | agent_kernel/kernel/minimal_runtime.py:847-859 | completed and aborted absorb every event; only a cancel request changes an aborted run's reason |
| RunProjection.HighestClassWins | agent_kernel/kernel/minimal_runtime.py:908-949 | any sequence of operational events ends in the state of the highest class among the start and the events |
| RunProjection.OperationalOrderIsIrrelevant | agent_kernel/kernel/minimal_runtime.py:908-949 | reordering or repeating operational events does not change lifecycle, flags or recovery mode |
| RunProjection.ChildrenAreExact | agent_kernel/kernel/minimal_runtime.py:959-996 | the tracked children have no repeats and are exactly those whose last spawn or completion before the run ended is a spawn |
| RunProjection.LivenessIsPrefixState | agent_kernel/kernel/minimal_runtime.py:969-970 | an event counts for child tracking exactly when the events before it had not ended the run |
| RunProjection.ChildEventsDoNotSteer | agent_kernel/kernel/minimal_runtime.py:892-905 | deleting all child events leaves lifecycle, flags, recovery mode and reason unchanged |
| EventLog.AppendIsDense | agent_kernel/kernel/minimal_runtime.py:75-128 | every commit keeps offsets 1, 2, 3, ... per run, tables in agreement and the run cap |
| EventLog.AppendGrowsItsRun | agent_kernel/kernel/minimal_runtime.py:91-113 | a commit appends its stamped events to its own run, which it never evicts |
| EventLog.AppendLosesOnlyOldest | agent_kernel/kernel/minimal_runtime.py:115-127 | a commit leaves all other runs alone, except that a new run over the cap costs the oldest |
| EventLog.LoadDropsPrefix | agent_kernel/kernel/minimal_runtime.py:141-142 | loading after an offset is dropping a prefix of the run |
| EventLog.InMemoryEventLog.AppendCommit | agent_kernel/kernel/minimal_runtime.py:75-128 | the in-place append, refusing empty commits |
| EventLog.InMemoryEventLog.Load | agent_kernel/kernel/minimal_runtime.py:130-142 | the events of the run after the offset, in order |
| EventLog.InMemoryEventLog.CleanupCompletedRun | agent_kernel/kernel/minimal_runtime.py:144-157 | all tables forget the run and no other |
| ProjectionCache.InMemoryProjectionService.DoCatchUp | agent_kernel/kernel/minimal_runtime.py:196-226 | the bounded replay loop stores and returns the fold of the loaded events up to the bound; other runs keep their cache |
| ProjectionCache.InMemoryProjectionService.DoGet | agent_kernel/kernel/minimal_runtime.py:242-269 | the unbounded replay loop stores and returns the fold of the loaded events |
| ProjectionCache.InMemoryProjectionService.DoReadiness | agent_kernel/kernel/minimal_runtime.py:228-240 | readiness compares the offset of the projection get would return |
| ProjectionCache.CatchUpIsFullReplay | agent_kernel/kernel/minimal_runtime.py:207-226 | one incremental call from a correct cache equals a full replay of the loaded log up to its bound |
| ProjectionCache.CacheRefinesReplay | agent_kernel/kernel/minimal_runtime.py:196-269 | under every interleaving of commits with two-step calls, on a run the log has not dropped, the cache is a full replay up to its offset and every answer is a full replay of the log it loaded |
| ProjectionCache.OffsetNeverDecreases | agent_kernel/kernel/minimal_runtime.py:196-269 | the projected offset never moves back, over commits, calls and restarts of the log |
| ProjectionCache.ReadinessIsExact | agent_kernel/kernel/minimal_runtime.py:228-240 | readiness(r) holds exactly when r is at most the offset of the last replayable loaded event, or 0 |
| ProjectionCache.RestartedLogIsInvisible | agent_kernel/kernel/minimal_runtime.py:115-127 | after eviction restarts a run's offsets, events up to the cached offset are not replayed |
| ProjectionCache.AnswerOverAnyCache | agent_kernel/kernel/minimal_runtime.py:242-269 | over any cached projection get stands at the larger of the cached and the last replayable offset; that is where a replay of the log stands exactly when the log has reached the cached offset with a replayable event, and a log shorter than the cached offset is always answered wrongly |
| ProjectionCache.ReadinessAcrossRestarts | agent_kernel/kernel/minimal_runtime.py:228-240 | in every reachable state, restarts included, readiness answers all required offsets as a replay of the log would exactly when the last replayable offset has reached the cached one |
| ProjectionCache.RestartBreaksRefinement | agent_kernel/kernel/minimal_runtime.py:115-127 | in every reachable state, dropping the run's log makes the next get differ from a replay of the log, unless the projection had never moved |
| ProjectionCache.RestartedRunIsReachable | agent_kernel/kernel/minimal_runtime.py:115-157 | committing any replayable event, reading it and dropping the run reaches such a state |
| TraceRegistry.EarlyWrite | agent_kernel/adapters/facade/kernel_facade.py:330-361 | a change applied at once, ahead of operations the log holds before it, ends in the same views as applied only in its place, if a change finds its view and an opened id is new to the map and those operations |
| TraceRegistry.ReplayByMap | agent_kernel/adapters/facade/kernel_facade.py:313-368 | replay acts on branches and on stages independently, event by event |
| TraceWrites.LoggedDecodes | agent_kernel/adapters/facade/kernel_facade.py:1531-1710 | the event every trace write logs decodes back to that write |
| TraceWrites.LocalMatchesReplay | agent_kernel/adapters/facade/kernel_facade.py:1511-1687 | local update and replayed event agree on the views exactly when no open id is re-opened differently and no stage code is overwritten by the empty string |
| KernelFacade.TraceCache.RebuildFromEvents | agent_kernel/adapters/facade/kernel_facade.py:294-369 | the rebuild loop merges the events after the offset in order; if one raises, what was merged stays and the offset does not move |
| KernelFacade.TraceCache.TouchRun | agent_kernel/adapters/facade/kernel_facade.py:375-391 | the touch loop is the specified eviction and keeps order list and set in agreement within the cap |
| KernelFacade.TraceCache.EvictOldestRun | agent_kernel/adapters/facade/kernel_facade.py:393-403 | evicts the first run of the order list and purges its state |
| KernelFacade.TraceCache.CleanupCompletedRun | agent_kernel/adapters/facade/kernel_facade.py:428-443 | the run is untracked and purged |
| KernelFacade.TraceCache.PerformWrite | agent_kernel/adapters/facade/kernel_facade.py:1496-1752 | a trace write touches, drops repeated approvals, updates locally, logs one event; unknown ids raise after the touch |
| KernelFacade.TouchIsFifo | agent_kernel/adapters/facade/kernel_facade.py:385-403 | a first touch appends the run; at the cap exactly the longest-tracked run loses its state |
| KernelFacade.TouchKeepsTidy | agent_kernel/adapters/facade/kernel_facade.py:385-391 | the order list keeps no repeats, lists exactly the tracked set and fits the cap |
| FacadeReads.CacheIsReplay | agent_kernel/adapters/facade/kernel_facade.py:294-443 | under any growth, queries, touches, evictions, cleanups and writes elsewhere the run's registries are the replay up to the rebuild offset and the tracked list is sound |
| FacadeReads.QueryIsFullReplay | agent_kernel/adapters/facade/kernel_facade.py:307-369 | a query brings the registries to the full replay of the log and never raises on events the facade writes |
| FacadeReads.QueryForgetsEvictions | agent_kernel/adapters/facade/kernel_facade.py:393-426 | two facades with arbitrary histories over the same log show the same registries after a query |
| FacadeWrites.QueryEqualsCold | agent_kernel/adapters/facade/kernel_facade.py:294-443 | over every interleaving of own writes (local update and log append as separate steps, appends in any order), other writers' events, evictions and rebuilds: a rebuild while no own write is in flight shows exactly the branches, stages, open and resolved gates a fresh facade rebuilds from the same log |
| FacadeWrites.InFlightCatchesUp | agent_kernel/adapters/facade/kernel_facade.py:1496-1752 | in every reachable state with own writes in flight: along every continuation of the log that takes them in, in any order and among any other events, facade and fresh facade end with the same branches, stages and gates |
| FacadeWrites.WarmEqualsCold | agent_kernel/adapters/facade/kernel_facade.py:1496-1752 | over every such interleaving, while the facade is in sync: its branches, stages and resolved gates equal those a fresh facade has once the writes in flight are logged, whose open gates are the writer's open or resolved ones |
| FacadeWrites.OwnReplayIsIdle | agent_kernel/adapters/facade/kernel_facade.py:294-369 | while the facade is in sync with nothing in flight, replaying the log from wherever it left off changes no branch and no stage |
| FacadeWrites.WriteStaysWarmIff | agent_kernel/adapters/facade/kernel_facade.py:1496-1710 | any write of a facade in sync keeps its views those of a fresh facade exactly when it opens no known id with other content and blanks no stage code |
| FacadeWrites.LateOpeningDiverges | agent_kernel/adapters/facade/kernel_facade.py:1607-1703 | a branch mark logged before the opening it follows locally stays in the writing facade and is missing from a fresh one, unless it says nothing new |
| FacadeWrites.FacadeWritesLikeDesk | agent_kernel/adapters/facade/kernel_facade.py:1496-1710 | up to its log append, a write of the facade is the update step of these lemmas, whichever run the touch evicts |
| FacadeWrites.FacadeRefreshesLikeDesk | agent_kernel/adapters/facade/kernel_facade.py:307-369 | a rebuild of the facade's cache is their refresh step |
| FacadeWrites.FacadeEvictsLikeDesk | agent_kernel/adapters/facade/kernel_facade.py:385-443 | touches and cleanups of any run leave this run alone or are their eviction step |
| RateLimiter.SlidingWindowLimiter.CheckRateLimit | agent_kernel/kernel/admission/snapshot_driven_admission.py:173-196 | the left-popping deque loop computes the window step |
| RateLimiter.WindowAbbreviates | agent_kernel/kernel/admission/snapshot_driven_admission.py:183-195 | the deque is always the unexpired suffix of the run's full admission history |
| RateLimiter.DenialIsExact | agent_kernel/kernel/admission/snapshot_driven_admission.py:186-196 | a request reaching rule 5 is admitted exactly when fewer than the limit of the run's admissions lie in the closed minute before it; a denial adds no admission |
| RateLimiter.NoIntervalOverLimit | agent_kernel/kernel/admission/snapshot_driven_admission.py:173-196 | with a forward clock and one limit no closed 60-second interval holds more admissions of a run than the limit |
| RateLimiter.RunsAreIndependent | agent_kernel/kernel/admission/snapshot_driven_admission.py:179-186 | a run's window and admissions are those it would have with no other run present |
| Heartbeat.RunHeartbeatMonitor.TouchRun | agent_kernel/runtime/heartbeat.py:471-494 | entry created or refreshed, signalled mark lifted |
| Heartbeat.RunHeartbeatMonitor.LifecycleTransition | agent_kernel/runtime/heartbeat.py:209-220 | touch, then clear on a terminal state |
| Heartbeat.RunHeartbeatMonitor.IsAlive | agent_kernel/runtime/heartbeat.py:270-288 | alive unless tracked, monitored and silent for the whole timeout |
| Heartbeat.RunHeartbeatMonitor.GetTimedOutRuns | agent_kernel/runtime/heartbeat.py:306-329 | reports each expired unmarked run once and marks exactly those |
| Heartbeat.RunHeartbeatMonitor.WatchdogOnce | agent_kernel/runtime/heartbeat.py:342-382 | a sweep reports the due runs once each, is a scan move followed by one failed-delivery move per undelivered report, and leaves newly marked exactly the delivered ones |
| Heartbeat.SweepExtendsHistory | agent_kernel/runtime/heartbeat.py:342-382 | a move history followed by a sweep is again a move history, so the results below cover sweeps |
| Heartbeat.SignalledAreTracked | agent_kernel/runtime/heartbeat.py:306-382 | in every run of the monitor signalled runs are tracked runs |
| Heartbeat.ScanLeavesNoneBehind | agent_kernel/runtime/heartbeat.py:318-329 | after a scan every tracked run is alive at the scan time or signalled |
| Heartbeat.OneReportPerSilence | agent_kernel/runtime/heartbeat.py:306-382 | between two reports of a run there is a touch, a clear or a failed delivery of it |
| RunTrace.ObserverRecoversOutcome | agent_kernel/kernel/event_export.py:404-428 | for every turn that returns, the exported event types alone give back its outcome kind |
| RunTrace.ObserverRecoversDedupe | agent_kernel/kernel/event_export.py:431-452 | for every executed turn the inferred dedupe outcome is degraded exactly when the reservation raised |
| RunTrace.RunTraceRecord.AbsorbCommit | agent_kernel/kernel/event_export.py:256-285 | the absorb loops compute the trace step |
| RunTrace.TraceSummarisesStream | agent_kernel/kernel/event_export.py:256-285 | over any commits: turns in order, failures counted, terminal state of the first terminal event, first occurrences of run.* types |
| CapabilitySnapshot.NormalizeIsExact | agent_kernel/kernel/capability_snapshot.py:277-288 | the normal form is strictly sorted and holds exactly the non-empty input strings |
| CapabilitySnapshot.CanonicalIsExact | agent_kernel/kernel/capability_snapshot.py:177-201 | two inputs have equal canonical payloads exactly when their hashed scalars and digest agree and each of the five lists has the same non-empty strings |
| CapabilitySnapshot.HashFollowsMeaning | agent_kernel/kernel/capability_snapshot.py:202-228 | same meaning gives same hash and reference; with a collision-free hash also conversely |
| CapabilitySnapshot.RebuildIsFixpoint | agent_kernel/kernel/capability_snapshot.py:153-228 | rebuilding from a snapshot's own fields gives the same snapshot |
| Checkpoint.ExportParses | agent_kernel/adapters/agent_core/checkpoint_adapter.py:99-155 | parsing an exported id returns the pair, colons in the run id included |
| Checkpoint.ExportParsesIff | agent_kernel/adapters/agent_core/checkpoint_adapter.py:99-155 | an exported id parses exactly when the run id is non-empty and the offset is not negative |
| Checkpoint.ShapedIdParses | agent_kernel/adapters/agent_core/checkpoint_adapter.py:141-155 | every well-shaped id is accepted with the value of its digits |
| Checkpoint.DistinctPairsDistinctIds | agent_kernel/adapters/agent_core/checkpoint_adapter.py:99-105 | distinct pairs export distinct ids |
| Checkpoint.AcceptedIdReprints | agent_kernel/adapters/agent_core/checkpoint_adapter.py:141-155 | every accepted id prints back to itself up to leading zeros |
| Checkpoint.ResumeChecksOwnership | agent_kernel/adapters/agent_core/checkpoint_adapter.py:157-189 | resume import accepts an exported id exactly for the run it belongs to |
| Checkpoint.CheckpointAdapter.ExportView | agent_kernel/adapters/agent_core/checkpoint_adapter.py:81-105 | the exported view, and that it can always be handed back to resume the run |

## Supporting members

Setters and read-backs the results above rest on:

- `Checkpoint.CheckpointAdapter.BindProjection` (agent_kernel/adapters/agent_core/checkpoint_adapter.py:72-79): the latest projection of the run is bound, others stay.
- `Heartbeat.RunHeartbeatMonitor.ClearRun` (agent_kernel/runtime/heartbeat.py:331-340): entry and mark removed.
- `Heartbeat.ReportsAreDue` (agent_kernel/runtime/heartbeat.py:318-328): a scan reports a run exactly when it is not alive and not marked.
- `KernelFacade.TraceCache.PurgeRunState` (agent_kernel/adapters/facade/kernel_facade.py:405-426): all registries, approvals and the offset of the run go, and nothing of other runs.
- `DispatchPolicy.RemotePolicyIsConservative` (agent_kernel/kernel/remote_service_policy.py:36-88): a guaranteed level survives exactly when requested and proved by the contract; retry needs a contract that allows it.

## Left out

- ProjectionCache.CacheRefinesReplay: fails once the log drops the run while the service keeps its projection; `RestartBreaksRefinement` and `ReadinessAcrossRestarts` give the exact conditions.
- TraceWrites.LocalMatchesReplay: does not cover the order in which branches and stages are listed; registries are maps.
- TurnSystem.AliasInStepAndSettled: phase timeouts and task cancellation outside the executor call are not modelled.
- Heartbeat.RunHeartbeatMonitor.WatchdogOnce: the gateway's answers are fixed per run for the sweep; interleaved touches and clears are covered by the move-sequence lemmas.
- KernelFacade.TraceCache.TouchRun: the cap is a natural number; with a negative `max_tracked_runs` the source's eviction loop does not end.
- RateLimiter.DenialIsExact: timestamps are real numbers, so floating-point rounding of `now - 60.0` is not modelled.
- Checkpoint.AcceptedIdReprints: `isdigit` is read as ASCII digits, and Python's limit on the length of integer text is ignored.
- FacadeReads.CacheIsReplay: assumes trace events carry the fields their writers write; one that does not makes the rebuild raise, as `RebuildFromEvents` states.
- FacadeWrites.QueryEqualsCold: trace events carry the fields their writers write; an id is opened only when neither the facade nor an event it has yet to replay knows it, and is not named in the log while its opening is in flight; no stage gets an empty failure code. `WriteStaysWarmIff` and `LateOpeningDiverges` show what happens otherwise.
- FacadeWrites.WarmEqualsCold: under the same conditions; a rebuild is one step, as the in-memory log's load does not suspend.
- FacadeWrites.FacadeWritesLikeDesk: needs a positive cap; with cap 0 a touch evicts the very run it touches.
- The parsing of admission-provided envelope dictionaries (agent_kernel/kernel/turn_engine.py:1030-1069): the parsed envelope is an arbitrary answer.
- SHA-256, `json.dumps`, UUIDs and clocks are parameters; `.strip().lower()` on host hints and float parsing of cost tags are arbitrary functions.
- Admission rules 1 to 4 of the snapshot-driven service appear only as "denied before rule 5".
- Execution contexts, failure envelopes, recovery input, host-kind and recovery-mode inference of the observer.
- `review_state` and gate verdicts across facades, `count_by_run`, metrics, health checks, drain coordination.
- Event schema migration, SQLite and PostgreSQL stores, Temporal substrate, HTTP service, LLM gateways, script runtimes, CLI.
