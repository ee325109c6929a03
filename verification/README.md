# The Controller's durable state machines, modelled and proved

This project models the parts of the Star Controller whose correctness is about more than one call, and proves
what they keep. It is checked with `dafny verify dfyconfig.toml`.

| Part | Files | What it is |
|---|---|---|
| Operation store | `Operations`, `OperationStore`, `OperationFacts`, `OperationEffects` | the durable table of Operations: nine mutators, restart recovery, pruning, event paging |
| Codex execution | `CodexRecords`, `CodexProtocol`, `CodexController`, `CodexFacts`, `CodexTheorems`, `CodexRuns`, `CodexOutcomes`, `CodexLaunches`, `CodexSuccess` | launch, status, interrupt and finalization of one execution over three stores, with a crash possible between any two writes |
| Goal store | `Goals`, `GoalStore`, `GoalFacts`, `GraphFacts`, `GoalTheorems`, `GoalCompletion`, `GoalEffects`, `GraphEffects`, `GoalDocuments` | goal lifecycle, hash-chained stage graphs, stage results, evidence-bound completion, loading |
| Schema inliner | `Schemas`, `SchemaResolver`, `SchemaPointers`, `SchemaReferences`, `SchemaFacts`, `SchemaMeaning`, `SchemaLimits` | replacement of every `$ref` by its target |
| Idle lease | `Lifecycle`, `LifecycleFacts`, `LifecycleEffects` | the projection of Codex activity that decides when to shut down |
| Lock gate | `Gate`, `GateFacts` | all-or-nothing acquisition of a place and a set of locks |

Each part has the same build. A value-level module says what every call does to a value. A class performs the same
call in place, with the source's loops and early returns, and each of its methods is tied to the value-level call
by `ensures`. A third module says what each value-level call means, in fields, constants and tables that do not go
through its own helpers. The theorems are about whole runs of the value-level calls: failing writes, restarts and repeated
requests in any order. Clocks, generated ids, the outcome of a write and the answers of the App Server are
parameters. A fingerprint is modelled as the content it digests, so it is injective.

## What the code does and what is claimed of it

Where a natural claim is false of the code, the code is modelled as it is, a lemma gives an input on which the
claim fails, and the exact condition is proved.

* *Finalization of an execution converges* only if the clock lets it. The receipt keeps whole milliseconds of its
  own time, the execution keeps its start in full precision, and a terminal record may not end before it starts.
  `OrphansAreFinalizedExactlyWhen` proves the condition in both directions, `FinalizationCanBeStuck` gives a
  reachable run that is stuck for ever.
* *The record shows that a turn may have started* holds of the newest open record and of the record a receipt is
  about. It fails of a terminal record without a turn reference (`TerminalRecordKeepsTheMarkExactlyWhen`,
  `LostTurnIsForgottenByTheTerminalRecord`); `LostTurnCanBeForgotten` gives a reachable run.
* *Reconciliation closes the Operation* fails exactly for an unknown outcome of an Operation that was never
  started (`ReconciliationCloses`). `ReconciliationCanLeaveTheOperationOpen` gives a reachable run that settles
  the execution and leaves its Operation queued.
* *A started Operation is never reported as not started* holds of restart recovery and of cancellation. It fails
  of a forced shutdown, which goes by the process id (`ForcedShutdownTrustsTheProcessId`,
  `ForcedShutdownCanDenyAStart`).
* *Every written goal file loads again* needs published graphs to name stored results, which
  `publish_stage_graph` does not check (`PublishReloadsExactlyWhen`, `UncheckedRefsLockTheStore`).
* *A failing `start` leaves no trace* fails exactly for an invalid configuration
  (`StartFailsCleanlyExactlyWhen`); two overrides of one key are one (`RefusedStartCanLeaveAGoal`).
* *Inlining preserves meaning* needs data to hold no `$ref` member: the value of a `const` is rewritten like a
  schema, and original and output then disagree about an instance (`DataIsRewritten`). For schemas without
  subschemas the condition is proved in both directions (`FlatSchemasKeepTheirMeaningExactlyWhen`).
* *The output passes the check of refused keywords* fails exactly if some part of the document, with its references
  followed, has a `type` that comes out as "number" (`OutputStaysInSubsetExactlyWhen`); then, and only then, the
  output cannot be inlined again (`InliningAgainExactlyWhen`). `OutputMayLeaveTheSubset` gives a document.
* A record published again is accepted exactly if its creation time is the stored one
  (`RepublishedExactlyWhen`).
* A fragment is read as a plain JSON pointer; the percent-decoding of section 6 of RFC 6901 is not done by the
  code and not by the model.

## Model

| member | source | states |
|---|---|---|
| OperationStore.RecoverAll | apps/star-controller/src/operation_store.rs:158-206 | the recovery loop closes every live entry and reports whether there was one |
| OperationStore.Store.Load | apps/star-controller/src/operation_store.rs:141-206 | start-up reads the committed file, recovers it, and comes up exactly if nothing changed or the change was written |
| OperationStore.Store.Create | apps/star-controller/src/operation_store.rs:210-297 | memory, disk and answer after a create are those of the value-level call, including replays, conflicts and failed writes; what that call answers is `OperationEffects.RepeatedCreateFindsItsOperation` and `CreateEffect` |
| OperationStore.Store.Transition | apps/star-controller/src/operation_store.rs:299-325 | memory, disk and answer after a transition are those of the value-level call |
| OperationStore.Store.Complete | apps/star-controller/src/operation_store.rs:327-404 | the same for completion, with late evidence on closed Operations recorded once |
| OperationStore.Store.RequestCancel | apps/star-controller/src/operation_store.rs:406-446 | the same for cancellation, effective at once only before the start |
| OperationStore.Store.RecordForcedShutdown | apps/star-controller/src/operation_store.rs:448-496 | the same for a forced shutdown, decided by the process id |
| OperationStore.Store.RecordProgress | apps/star-controller/src/operation_store.rs:498-516 | the same for progress, refused on closed and unknown Operations |
| OperationStore.Store.RecordProcessStarted | apps/star-controller/src/operation_store.rs:518-557 | the same for the start of a process |
| OperationStore.Store.RecordProcessFinished | apps/star-controller/src/operation_store.rs:559-583 | the same for the end of a process, recorded once, also after closing |
| OperationStore.Store.PruneExpired | apps/star-controller/src/operation_store.rs:642-663 | expired Operations and the keys that point to them are gone, nothing else |
| OperationFacts.AppendFacts | apps/star-controller/src/operation_store.rs:690-699 | appending keeps sequence numbers 1..n with the latest equal to n and extends the log |
| OperationFacts.MutationKeeps | apps/star-controller/src/operation_store.rs:299-583 | every mutator keeps the snapshot invariant and only moves a snapshot forward |
| OperationFacts.CompleteKeeps | apps/star-controller/src/operation_store.rs:327-404 | completion keeps it, on live and on closed Operations |
| OperationFacts.RecoveryNeverDeniesAStart | apps/star-controller/src/operation_store.rs:158-206 | an Operation that was ever running or has a process recovers as outcome unknown, and a cancellation of it is not effective as not started |
| OperationFacts.ForcedShutdownTrustsTheProcessId | apps/star-controller/src/operation_store.rs:457-496 | a forced shutdown reports a live Operation as not started exactly if it has no process id |
| OperationFacts.ForcedShutdownCanDenyAStart | apps/star-controller/src/operation_store.rs:463-487 | there is a running Operation that a forced shutdown reports as cancelled before its start |
| OperationFacts.PruneDropsExactlyTheExpired | apps/star-controller/src/operation_store.rs:642-663 | pruning drops exactly the closed Operations past their retention, never a live one, and exactly the keys pointing to them |
| OperationFacts.RecoverIsIdempotent | apps/star-controller/src/operation_store.rs:158-206 | recovering a recovered file changes nothing |
| OperationFacts.CreateIsNeverCorrupt | apps/star-controller/src/operation_store.rs:215-232 | the lookup of an idempotency key never finds a dangling entry |
| OperationFacts.AdvanceKeeps | apps/star-controller/src/operation_store.rs:141-583 | one call with a write that may fail, or one restart, keeps the invariant of memory and disk together |
| OperationFacts.RunKeeps | apps/star-controller/src/operation_store.rs:141-583 | the same over whole runs, with both copies descending from any earlier file |
| OperationFacts.ReachableStoresAreSound | apps/star-controller/src/operation_store.rs:141-297 | in every run from the empty store keys point to distinct stored Operations, expiry is set exactly on closed ones, and result and error fit the status |
| OperationFacts.CommittedOperationsOnlyMoveForward | apps/star-controller/src/operation_store.rs:141-583 | a committed Operation found again later is a later version of itself |
| OperationFacts.ClosedOperationsAreImmutableUpToEvidence | apps/star-controller/src/operation_store.rs:327-404 | after closing, status, result and error never change under any call or restart and at most three more events are appended |
| OperationFacts.AStartIsNeverDenied | apps/star-controller/src/operation_store.rs:158-206 | over whole runs no started Operation returns to a status from which recovery or cancellation would deny the start |
| OperationFacts.LaterIsADrop | apps/star-controller/src/operation_store.rs:611-625 | the events after a sequence number are the log without that many first entries |
| OperationFacts.PageIsTheNextSlice | apps/star-controller/src/operation_store.rs:611-625 | a page is the next slice of at most 256 entries |
| OperationFacts.FirstPage | apps/star-controller/src/operation_store.rs:611-625 | the first page read of a growing log is the corresponding slice of the final log |
| OperationFacts.PagingIsLossless | apps/star-controller/src/operation_store.rs:611-625 | reading with the last sequence seen gives a prefix of the log without gap or repetition, also while the log grows |
| OperationFacts.EnoughPagesReadEverything | apps/star-controller/src/operation_store.rs:611-625 | as many reads as there are pages of 256 return the whole log in order |
| OperationEffects.TransitionsAreTheListedOnes | apps/star-controller/src/operation_store.rs:701-725 | the transitions out of a live status are exactly the seven listed sets, and the closing statuses are exactly six |
| OperationEffects.TransitionEffect | apps/star-controller/src/operation_store.rs:299-325 | a transition is done exactly to a listed successor; it logs one event, sets the start once, and closes for one day exactly where the successor closes |
| OperationEffects.CompleteSuccessEffect | apps/star-controller/src/operation_store.rs:327-404 | a value closes a live Operation as succeeded, kept for one day |
| OperationEffects.CompleteFailureEffect | apps/star-controller/src/operation_store.rs:327-404 | an error closes it as failed, and as effectively cancelled exactly where its code is TOOL_CANCELLED |
| OperationEffects.LateCompleteEffect | apps/star-controller/src/operation_store.rs:347-364 | on a closed Operation a late success and a late failure are each logged once, and nothing else changes |
| OperationEffects.RequestCancelEffect | apps/star-controller/src/operation_store.rs:406-446 | a cancellation closes an Operation at once exactly where it is cancellable and received, resolving, waiting or queued; otherwise it is only noted or makes it cancelling |
| OperationEffects.ForcedShutdownEffect | apps/star-controller/src/operation_store.rs:448-496 | a forced shutdown closes a live Operation as unknown with a process and as cancelled without |
| OperationEffects.ProgressEffect | apps/star-controller/src/operation_store.rs:498-516 | progress is logged on a live Operation and refused on a closed one, and changes nothing else |
| OperationEffects.ProcessStartedEffect | apps/star-controller/src/operation_store.rs:518-557 | a process start is accepted exactly while starting or cancelling, and a requested cancellation stays in force |
| OperationEffects.ProcessFinishedEffect | apps/star-controller/src/operation_store.rs:559-583 | the first end of a process is kept and logged, in any status |
| OperationEffects.RecoveryEffect | apps/star-controller/src/operation_store.rs:158-206 | a restart fails what had not started, makes the rest unknown, and leaves closed Operations alone |
| OperationEffects.RestartLeavesNothingLive | apps/star-controller/src/operation_store.rs:141-206 | a restart that comes up leaves no live Operation in memory or on disk and no closed one changed; it fails to come up exactly where something was live and could not be written |
| OperationEffects.MutateTouchesOneEntry | apps/star-controller/src/operation_store.rs:299-583 | a call changes the one entry it names, and none if there is no such entry |
| OperationEffects.CreateEffect | apps/star-controller/src/operation_store.rs:233-297 | a create with a new key, or none, adds one received Operation and makes the key name it |
| OperationEffects.RepeatedKey | apps/star-controller/src/operation_store.rs:228-244 | a key in use answers the same invocation with its Operation and refuses another invocation as a conflict |
| OperationEffects.RepeatedCreateFindsItsOperation | apps/star-controller/src/operation_store.rs:210-297 | over whole runs: after an accepted create, and as long as its Operation is kept, the same key answers the same invocation with that Operation as it is now, refuses any other, and adds nothing |
| CodexRecords.ConclusionSealsExactlyWhen | apps/star-controller/src/codex_product.rs:1791-1836 | a terminal record can be sealed exactly if the receipt is not earlier than the start and success has a turn |
| CodexRecords.RepublishedExactlyWhen | crates/infrastructure/star-state/src/lib.rs:7151-7172 | the same document is accepted again exactly with the creation time it was stored with, and is never written twice |
| CodexRecords.ContiguousStore | crates/infrastructure/star-state/src/lib.rs:7131-7192 | in an append-only store with revisions 1..n the latest document is the last and each revision finds its own |
| CodexFacts.NextKeeps | apps/star-controller/src/codex_product.rs:1100-1467 | every step of every command, every crash, restart and foreign call keeps the invariant of the three stores and only adds documents |
| CodexFacts.RunKeeps | apps/star-controller/src/codex_product.rs:1100-1467 | the same over whole runs |
| CodexFacts.FinReceiptKeeps | apps/star-controller/src/codex_product.rs:1626-1680 | filing or finding the receipt keeps it |
| CodexFacts.TurnKeeps | apps/star-controller/src/codex_product.rs:1430-1467 | recording the turn keeps it, whether or not the write and the registry work |
| CodexFacts.HarmlessCallsNeverSucceed | apps/star-controller/src/operation_store.rs:299-583 | calls that do not report success never make an Operation succeeded |
| CodexTheorems.AtMostOneTurn | apps/star-controller/src/codex_product.rs:1100-1141 | over any run of retries, status calls, interrupts and crashes `turn/start` is issued at most once for an Operation |
| CodexTheorems.EffectMarkingIsWriteAhead | apps/star-controller/src/codex_product.rs:1386-1431 | at every crash point after the turn was asked for, the newest open record says it may have started, and a receipt denies it only after a definite refusal |
| CodexTheorems.TerminalRecordKeepsTheMarkExactlyWhen | apps/star-controller/src/codex_product.rs:1755-1757 | the terminal record says so exactly if the turn's reference was recorded |
| CodexTheorems.LostTurnIsForgottenByTheTerminalRecord | apps/star-controller/src/codex_product.rs:1401-1431 | after a lost answer the receipt says that the effect may have started and the terminal record does not |
| CodexTheorems.ReceiptStepDecides | apps/star-controller/src/codex_product.rs:1626-1680 | with the receipt durable the terminal record is ready exactly if the receipt's millisecond is not before the start |
| CodexTheorems.ConclusionStepSettles | apps/star-controller/src/codex_product.rs:1834-1839 | publishing the terminal record settles the execution and changes nothing else |
| CodexTheorems.FinalizationSteps | apps/star-controller/src/codex_product.rs:1759-1850 | two successful writes settle the execution with the record computed from the deciding receipt, exactly if its time allows |
| CodexTheorems.StoresNeverContradict | apps/star-controller/src/codex_product.rs:1777-1839 | at every crash point a succeeded Operation has a Completed record, which has a Succeeded receipt, which the App Server's own notice stands behind |
| CodexTheorems.FirstReceiptDecides | apps/star-controller/src/codex_product.rs:1774-1786 | the first receipt is never replaced and fixes the only terminal record that can ever follow, whatever later retries ask for |
| CodexTheorems.TerminalRecordsAreFinal | apps/star-controller/src/codex_product.rs:1137-1140 | once terminal, the records never change again |
| CodexTheorems.PlanCloses | apps/star-controller/src/codex_product.rs:1691-1737 | what the planned call makes of an Operation in each status |
| CodexTheorems.ReconciliationCloses | apps/star-controller/src/codex_product.rs:1682-1740 | written reconciliation closes the Operation except exactly for an unknown outcome of one never started, and never reports success otherwise |
| CodexTheorems.OrphanAsked | apps/star-controller/src/codex_product.rs:1882-1893 | a status call on an execution without a handle starts its finalization as outcome unknown |
| CodexTheorems.AskedAndConcluded | apps/star-controller/src/codex_product.rs:1882-1893 | after the status call, the receipt and the terminal record the execution is settled exactly if the clock allows |
| CodexTheorems.OrphansAreFinalizedExactlyWhen | apps/star-controller/src/codex_product.rs:1759-1850 | an orphaned execution is brought to its terminal record if and only if the receipt's millisecond is not before its start |
| CodexTheorems.OrphansCloseTheirOperation | apps/star-controller/src/codex_product.rs:1682-1740 | and its Operation is closed then, except for an unknown outcome of one never started |
| CodexTheorems.EarlyReceiptsAreNeverConcluded | apps/star-controller/src/codex_product.rs:1787-1836 | with an early receipt no run ever publishes a terminal record |
| CodexRuns.FinalizationCanBeStuck | apps/star-controller/src/codex_product.rs:1198-1217 | a reachable run, with one failed write, after which no continuation ever finalizes the execution |
| CodexRuns.ReconciliationCanLeaveTheOperationOpen | apps/star-controller/src/codex_product.rs:1719-1733 | a reachable run that settles the execution as outcome unknown and leaves its Operation queued |
| CodexRuns.LostTurnCanBeForgotten | apps/star-controller/src/codex_product.rs:1401-1431 | a reachable run with one turn, a receipt that says it may have started and a terminal record that does not |
| CodexOutcomes.FinalizedAs | apps/star-controller/src/codex_product.rs:1759-1850 | a finalization whose writes succeed leaves receipt, terminal record and Operation of one row of the outcome table, field by field |
| CodexOutcomes.FailedWritesStop | apps/star-controller/src/codex_product.rs:1774-1839 | a receipt or terminal record that cannot be written stops a finalization where it is |
| CodexOutcomes.TurnEndsAs | apps/star-controller/src/codex_product.rs:1959-1987 | a completed turn gives a succeeded receipt, a Completed record and a succeeded Operation; a failed one failed, Failed and failed; an interrupted one partial, Interrupted and cancelled; any other unknown in all three |
| CodexOutcomes.StatusGivesUpAs | apps/star-controller/src/codex_product.rs:1902-1957 | a poisoned registry, a lost connection and a report that cannot be recorded end the execution as unknown in all three stores |
| CodexOutcomes.TimeoutChangesNothing | apps/star-controller/src/codex_product.rs:1929-1932 | a status call that hears nothing changes nothing |
| CodexOutcomes.NotificationIsRecorded | apps/star-controller/src/codex_product.rs:1988-2022 | a notification is the next record, registered, and no other field of execution or Operation changes |
| CodexOutcomes.LostNotificationEndsAs | apps/star-controller/src/codex_product.rs:1988-2022 | a notification that cannot be written ends the execution as unknown in all three stores |
| CodexOutcomes.AbandonedEndsAs | apps/star-controller/src/codex_product.rs:1132-1140 | status, interrupt and launch on an execution without a handle end it as unknown, and the receipt says the effect may have started exactly where the newest record does |
| CodexOutcomes.RefusedLaunchChangesNothing | apps/star-controller/src/codex_product.rs:1103-1131 | a launch whose approval is no longer good, or of another scope, or of a registered execution changes nothing |
| CodexOutcomes.SettledIsReconciled | apps/star-controller/src/codex_product.rs:1682-1740 | any command on a settled execution closes its Operation as the terminal record says and writes no document |
| CodexOutcomes.MarkTakes | apps/star-controller/src/codex_product.rs:575-607 | marking makes a running or cancelling Operation unknown, fails any other live one with TOOL_OUTCOME_UNKNOWN, and touches no document |
| CodexOutcomes.InterruptIsRecorded | apps/star-controller/src/codex_product.rs:2024-2126 | an accepted interrupt of a running execution is the next record, and its Operation is cancelling |
| CodexOutcomes.InterruptStops | apps/star-controller/src/codex_product.rs:2087-2092 | an interrupt goes no further where the Operation is not running or cannot be written |
| CodexOutcomes.RefusedInterruptMarksTheOperation | apps/star-controller/src/codex_product.rs:2093-2104 | an interrupt that is not accepted leaves the execution registered and its Operation unknown |
| CodexLaunches.StandsAt | apps/star-controller/src/codex_product.rs:1142-1467 | by induction over the steps of a launch: which records are written, what the Operation is in, and what comes next |
| CodexLaunches.LaunchReachesRunning | apps/star-controller/src/codex_product.rs:1142-1467 | from an approved Operation, a launch whose writes succeed and whose thread and turn are accepted leaves four records, the last one Running with both ids and registered, the Operation running, and one turn asked for |
| CodexLaunches.FailedLaunchEndsAs | apps/star-controller/src/codex_product.rs:1198-1459 | each of eight failures on the way ends the execution in all three stores as its own row of the table says, from the newest record |
| CodexLaunches.UnbegunLaunchLeavesNothing | apps/star-controller/src/codex_product.rs:1196 | a launch whose first record cannot be written leaves everything as it was |
| CodexLaunches.UnrecordedLaunchIsMarked | apps/star-controller/src/codex_product.rs:1351-1450 | a later record that cannot be written leaves the execution open and its Operation failed before its start, unknown after |
| CodexSuccess.ExecutionsCanSucceed | apps/star-controller/src/codex_product.rs:1100-2022 | a reachable run from the creation of the Operation to a Completed record, a succeeded receipt and a succeeded Operation |
| CodexControllers.CodexController.PublishExecution | apps/star-controller/src/codex_product.rs:420-448 | a record is appended, accepted again, or refused, as the document store does |
| CodexControllers.CodexController.MarkOperationOutcomeUnknown | apps/star-controller/src/codex_product.rs:575-607 | the marking of an Operation is the marking step of the state machine |
| CodexControllers.CodexController.LoadOrPublishTerminalReceipt | apps/star-controller/src/codex_product.rs:1626-1680 | the stored receipt if there is one and it matches, else a new one if it can be written; nothing changes on failure |
| CodexControllers.CodexController.ReconcileTerminalOperation | apps/star-controller/src/codex_product.rs:1682-1740 | the reconciliation is the reconciling step, with its answer |
| CodexControllers.CodexController.FinalizeWithEffectStarted | apps/star-controller/src/codex_product.rs:1759-1850 | run to its end, finalization does exactly the state machine's steps |
| CodexControllers.CodexController.Launch | apps/star-controller/src/codex_product.rs:1100-1467 | run to its end, a launch does exactly the state machine's steps, on every failing branch; what they leave is `LaunchReachesRunning`, `FailedLaunchEndsAs` and `UnrecordedLaunchIsMarked` |
| CodexControllers.CodexController.Status | apps/star-controller/src/codex_product.rs:1868-2022 | the same for a status call; what it leaves is `TurnEndsAs`, `StatusGivesUpAs`, `NotificationIsRecorded` and `AbandonedEndsAs` |
| CodexControllers.CodexController.Interrupt | apps/star-controller/src/codex_product.rs:2024-2126 | the same for an interrupt; what it leaves is `InterruptIsRecorded`, `InterruptStops` and `RefusedInterruptMarksTheOperation` |
| CodexControllers.CommandsAreRuns | apps/star-controller/src/codex_product.rs:1868-2126 | what the commands leave is a run of the state machine, so the theorems hold of the object |
| Goals.StageIndex | apps/star-controller/src/goal_store.rs:696-701 | the first stage with an id, or the certainty that there is none |
| GoalStores.CheckHistory | apps/star-controller/src/goal_store.rs:233-266 | the walk with a remembered previous graph accepts exactly the histories that are non-empty, end in the current graph, have valid entries and are chained |
| GoalStores.CheckResult | apps/star-controller/src/goal_store.rs:267-291 | accepts exactly the results that agree with their graph and stage and are carried by some revision |
| GoalStores.AddMissingHistory | apps/star-controller/src/goal_store.rs:205-211 | the migration loop adds the current graph where its revision is missing and nothing else |
| GoalStores.CheckFile | apps/star-controller/src/goal_store.rs:212-295 | accepts exactly the loadable files |
| GoalStores.CheckItems | apps/star-controller/src/goal_store.rs:447-469 | the loop with a set of ids and a counter accepts exactly bounded items with distinct ids and at most one in progress |
| GoalStores.GoalStore.Load | apps/star-controller/src/goal_store.rs:192-298 | a store opens exactly on files that are loadable once migrated |
| GoalStores.GoalStore.StartGoal | apps/star-controller/src/goal_store.rs:300-386 | memory, disk and answer after a start are those of the value-level call, also where it fails half-way |
| GoalStores.GoalStore.Mutate | apps/star-controller/src/goal_store.rs:833-850 | the frame of every edit: revision check, change, next revision, seal, commit |
| GoalStores.GoalStore.Answer | apps/star-controller/src/goal_store.rs:416-439 | memory, disk and answer after an answer are those of the value-level call |
| GoalStores.GoalStore.UpdatePlan | apps/star-controller/src/goal_store.rs:441-492 | the same for a new plan |
| GoalStores.GoalStore.ContinueRun | apps/star-controller/src/goal_store.rs:494-525 | the same for a continue |
| GoalStores.GoalStore.Pause | apps/star-controller/src/goal_store.rs:527-542 | the same for a pause |
| GoalStores.GoalStore.Resume | apps/star-controller/src/goal_store.rs:544-571 | the same for a resume |
| GoalStores.GoalStore.Cancel | apps/star-controller/src/goal_store.rs:573-591 | the same for a cancellation |
| GoalStores.GoalStore.PublishStageGraph | apps/star-controller/src/goal_store.rs:622-662 | the same for a published graph |
| GoalStores.GoalStore.RecordStageResult | apps/star-controller/src/goal_store.rs:664-757 | the same for a stage result |
| GoalStores.GoalStore.Complete | apps/star-controller/src/goal_store.rs:759-831 | the same for the completion of a goal, with the loop over its completion stages; when it completes is `GoalCompletion.CompletedExactlyWhen` |
| GoalFacts.EditKeeps | apps/star-controller/src/goal_store.rs:416-591 | every edit of a goal keeps its validity and the store's own invariant and makes a later version of it |
| GoalFacts.CompleteEditKeeps | apps/star-controller/src/goal_store.rs:824-830 | so does completion, which records exactly the given evidence |
| GoalFacts.CallKeeps | apps/star-controller/src/goal_store.rs:416-591 | a call keeps all goals valid and changes none but into a later version |
| GoalFacts.CompleteKeeps | apps/star-controller/src/goal_store.rs:759-831 | so does completion |
| GoalFacts.SortedByKeySorts | apps/star-controller/src/goal_store.rs:97 | the sorted overrides are an ordered permutation of the given ones |
| GoalFacts.SealedConfigIsValid | apps/star-controller/src/goal_store.rs:96-135 | what `seal` accepts `validate` accepts, and it holds exactly the requested overrides |
| GoalFacts.StartKeeps | apps/star-controller/src/goal_store.rs:300-386 | a start keeps the goal part of the file and drops nothing |
| GoalFacts.StartFailsCleanlyExactlyWhen | apps/star-controller/src/goal_store.rs:371-376 | a failing start changes nothing exactly unless the configuration is invalid; then just the goal stays behind |
| GoalFacts.RefusedStartCanLeaveAGoal | apps/star-controller/src/goal_store.rs:371-376 | a refused start, two overrides of one key, after which the goal is in the table with no key to find it |
| GraphFacts.EndedGraphShape | apps/star-controller/src/goal_store.rs:721-740 | the next graph of an accepted result can be sealed exactly if its stage is not a Codex stage without bound plans |
| GraphFacts.PublishOnlyAdds | apps/star-controller/src/goal_store.rs:622-662 | publishing never changes or drops a stored revision, on any file, also at the last revision number |
| GraphFacts.RecordOnlyAdds | apps/star-controller/src/goal_store.rs:664-757 | neither does recording a result |
| GraphFacts.PublishKeepsCurrent | apps/star-controller/src/goal_store.rs:629-660 | the current graph stays in its history |
| GraphFacts.RecordKeepsCurrent | apps/star-controller/src/goal_store.rs:742-754 | the same for a recorded result |
| GraphFacts.MigrationIsIdentity | apps/star-controller/src/goal_store.rs:205-211 | migration changes nothing once current graphs are in their histories |
| GraphFacts.AppendedHistory | apps/star-controller/src/goal_store.rs:233-266 | a history extended by a following graph is valid again |
| GraphFacts.PublishReloadsExactlyWhen | apps/star-controller/src/goal_store.rs:622-662 | the file after a publication passes `load`'s checks exactly if the graph's result refs are valid |
| GraphFacts.RecordKeeps | apps/star-controller/src/goal_store.rs:664-757 | recording a result keeps everything `load` checks of graphs, histories and results, with no hypothesis |
| GraphFacts.LoadedHistoriesAreChained | apps/star-controller/src/goal_store.rs:244-262 | what `load` accepts is a hash chain |
| GraphFacts.ChainIsContiguous | apps/star-controller/src/goal_store.rs:256-262 | its revisions are consecutive |
| GraphFacts.HashChainFixesThePast | apps/star-controller/src/goal_store.rs:244-262 | two histories that agree on one revision agree on every earlier one both have |
| GoalTheorems.ServeKeeps | apps/star-controller/src/goal_store.rs:300-850 | every call keeps the file's invariant and only grows it |
| GoalTheorems.NextKeeps | apps/star-controller/src/goal_store.rs:852-870 | so does every step with a write that may fail, and every restart |
| GoalTheorems.StoredRevisionsNeverChange | apps/star-controller/src/goal_store.rs:629-656 | over whole runs no stored (graph id, revision) entry changes |
| GoalTheorems.CompletedGoalsStayJustified | apps/star-controller/src/goal_store.rs:759-831 | a completed goal stays the same, and a revision stays in the history, whatever is replanned, with all stages completed and its evidence carried by a Completed result of the integration stage, else of the last stage of the critical path, else of some stage |
| GoalTheorems.RunningFreezesThePlan | apps/star-controller/src/goal_store.rs:441-591 | from the first continue on plan, plan revision and run id are fixed; a goal is completed only with items all done since then; ended goals are absorbing; an open question means no run |
| GoalTheorems.AttemptsCountContinues | apps/star-controller/src/goal_store.rs:494-525 | between restarts the attempt is the number of successful continues, capped at the counter's limit |
| GoalTheorems.AttemptsCountAcrossRestarts | apps/star-controller/src/goal_store.rs:494-525 | over whole runs with restarts the attempt, in memory and on disk, counts every continue as long as every write succeeds |
| GoalTheorems.RepeatedStartFindsItsGoal | apps/star-controller/src/goal_store.rs:342-354 | a repeated start answers with the first one's goal and changes nothing, however the store has changed |
| GoalTheorems.ServeReloads | apps/star-controller/src/goal_store.rs:300-850 | every call keeps what `load` checks of graphs, given valid refs in a published one |
| GoalTheorems.EveryReachableStoreReloads | apps/star-controller/src/goal_store.rs:192-298 | every reachable file, in memory and on disk, loads again and is left unchanged by migration, if published graphs have valid refs |
| GoalTheorems.UncheckedRefsLockTheStore | apps/star-controller/src/goal_store.rs:622-662 | two accepted, written calls after which no restart opens the store |
| GoalCompletion.BoundExactlyWhenProven | apps/star-controller/src/goal_store.rs:776-812 | evidence is bound exactly if the integration stage, else the last stage of the critical path, else some stage, carries a Completed result with that evidence |
| GoalCompletion.CompletedExactlyWhen | apps/star-controller/src/goal_store.rs:759-831 | a goal is completed if and only if its graph is its own with all stages completed and such a proof, the goal is at the expected revision with a done plan and a running run, and the reference is of an evidence bundle; then only the goal changes, field by field |
| GoalEffects.AnswerEffect | apps/star-controller/src/goal_store.rs:416-439 | an answer goes, trimmed, to the one open question by its id, and makes the goal active; what the goal is in every other case |
| GoalEffects.AcceptableItems | apps/star-controller/src/goal_store.rs:447-469 | a plan is acceptable exactly with 1 to 256 items, complete and distinct after trimming, at most one of them in progress |
| GoalEffects.PlanEffect | apps/star-controller/src/goal_store.rs:441-492 | a plan is replaced exactly on an active, paused or blocked goal without a running run, and a blocked goal becomes active exactly where nothing is blocked any more |
| GoalEffects.ContinueEffect | apps/star-controller/src/goal_store.rs:494-525 | a continue is allowed exactly on an active goal with a plan in which nothing is blocked, and counts an attempt or begins a run |
| GoalEffects.PauseEffect | apps/star-controller/src/goal_store.rs:527-542 | a pause of a goal that has not ended, and of one that is paused already |
| GoalEffects.ResumeEffect | apps/star-controller/src/goal_store.rs:544-571 | a resumed goal waits for its open question, else it is active |
| GoalEffects.CancelEffect | apps/star-controller/src/goal_store.rs:573-591 | a cancellation ends the goal and its run, except on a completed goal |
| GoalEffects.WrittenAtItsRevision | apps/star-controller/src/goal_store.rs:833-850 | an edit is written only at the revision it names, which it raises by one |
| GoalEffects.NoUpdateIsLost | apps/star-controller/src/goal_store.rs:833-850 | of two edits that name the same revision of a goal at most one is ever written, whatever is called in between |
| GraphEffects.SameInputExactlyWhen | apps/star-controller/src/goal_store.rs:342-354 | two start requests replay each other exactly if objective, project, question and sorted overrides agree after trimming |
| GraphEffects.RepeatedKeyAnswers | apps/star-controller/src/goal_store.rs:342-354 | a key in use answers the same start with its goal and refuses another one as a conflict |
| GraphEffects.StartEffect | apps/star-controller/src/goal_store.rs:300-386 | an accepted start adds one goal at its first revision, waiting exactly where it has a question, its configuration and its key |
| GraphEffects.PublishedExactlyWhen | apps/star-controller/src/goal_store.rs:622-662 | a graph is stored if and only if it is valid, of a stored goal, and either the first of its id or the direct successor of the current one by revision and fingerprint |
| GraphEffects.DependenciesDoneExactly | apps/star-controller/src/goal_store.rs:708-719 | the dependency check holds exactly if each dependency names a stage and the first stage with that id is completed |
| GraphEffects.FitsExactly | crates/foundation/star-contracts/src/stage.rs:514-577 | a result fits a stage exactly if goal, graph and stage references are theirs by fingerprint, the stage is open, a completed result covers all its criteria and projects and the stage is ready or running, any other only some, and a Codex stage has an execution |
| GraphEffects.RecordedExactlyWhen | apps/star-controller/src/goal_store.rs:664-757 | a new result is recorded if and only if graph and stage are at the expected revisions, it fits the stage, a completed one has its dependencies completed, and the next graph can be sealed; then the stage is closed by it in the next revision, which is linked to the current one, and nothing else changes |
| GraphEffects.RepeatedResultAnswers | apps/star-controller/src/goal_store.rs:674-688 | a result recorded before is answered with the current graph while a stage of it is closed by it, and another one under its id is a conflict |
| GraphEffects.LoadedResultsAreAccountedFor | apps/star-controller/src/goal_store.rs:267-291 | in a loadable file every result was made for a stage of a stored revision, which it fits, and some stored revision has that stage closed by it |
| GraphEffects.LoadedRevisionsAreConsistent | apps/star-controller/src/goal_store.rs:212-266 | in a loadable file every revision is a verified graph of a stored goal whose stages with results name stored ones that closed them, and the current graph is the last |
| GraphEffects.LoadedGoalsAreConsistent | apps/star-controller/src/goal_store.rs:212-232 | in a loadable file goals, keys and configurations belong together, and overrides ascend |
| GoalDocuments.TrimIsTheCore | apps/star-controller/src/goal_store.rs:416-470 | trimming takes the blanks at both ends away and nothing else |
| GoalDocuments.BoundedExactlyWhen | crates/foundation/star-contracts/src/orchestration.rs:272-276 | a text is bounded exactly if some character of it is no blank, it is not too long and it holds no NUL |
| GoalDocuments.ReachableGoalsAreWellFormed | crates/foundation/star-contracts/src/orchestration.rs:109-260 | in every run, in memory and on disk, every goal keeps what its status, plan, question, run and evidence say of each other |
| GoalDocuments.TakenDocumentsAreWellFormed | crates/foundation/star-contracts/src/stage.rs:365-760 | every graph and result the store takes, and every graph it makes of a result, is well formed, told stage by stage |
| Schemas.Split | apps/star-controller/src/manifest_resources.rs:620-634 | the parts of a pointer between its separators, always at least one |
| SchemaPointers.PointerFindsItsPlace | apps/star-controller/src/manifest_resources.rs:620-634 | the pointer of RFC 6901 written for a place finds that place, whatever characters its names hold |
| SchemaPointers.SplitPointer | apps/star-controller/src/manifest_resources.rs:620-634 | splitting a written pointer gives back its parts |
| SchemaPointers.DecimalReads | apps/star-controller/src/manifest_resources.rs:620-634 | an index is read back from its decimal text |
| SchemaReferences.ReferenceNamesItsPlace | apps/star-controller/src/manifest_resources.rs:260-285 | `file#pointer` is followed to the place the pointer was written for in that file, `file` and `file#` to the whole of it, and an empty file is the document itself |
| SchemaReferences.FollowedIsAPlace | apps/star-controller/src/manifest_resources.rs:620-634 | whatever is followed is local, and is a place of the named file found by a pointer, never by an anchor |
| SchemaReferences.IndexExactlyWhen | apps/star-controller/src/manifest_resources.rs:620-634 | an array index is read from the decimal text of a number and from nothing else |
| SchemaReferences.RemoteIsRefused | apps/star-controller/src/manifest_resources.rs:265-272 | an object whose `$ref` is no text or begins with one of five remote prefixes comes out nowhere |
| SchemaReferences.RefusedExactlyWhen | apps/star-controller/src/manifest_resources.rs:493-518 | a document is refused exactly if some place in it, at any depth, has the type "number" or one of four keywords |
| SchemaReferences.OffendersNeverResolve | apps/star-controller/src/manifest_resources.rs:193-203 | whatever the bound and the stack, a document with such a place comes out nowhere |
| SchemaReferences.ChainResolvesExactlyWhen | apps/star-controller/src/manifest_resources.rs:200-222 | for every length and bound, a chain of references resolves exactly if it is no longer than the bound |
| SchemaFacts.UnrollIsMonotone | apps/star-controller/src/manifest_resources.rs:200-202 | a larger depth bound never changes a success |
| SchemaFacts.StackIsNeverMet | apps/star-controller/src/manifest_resources.rs:214-222 | a value that unrolls within the bound never meets the stack of references being followed |
| SchemaFacts.ResolvingIsUnrolling | apps/star-controller/src/manifest_resources.rs:193-258 | a success with any stack is the unrolling without it |
| SchemaFacts.CycleCheckEqualsDepthBound | apps/star-controller/src/manifest_resources.rs:193-258 | with the stack and without it the outcome is the same for every document and bound, success or failure |
| SchemaMeaning.OutputIsRefFree | apps/star-controller/src/manifest_resources.rs:193-258 | the output holds no `$ref` at any depth |
| SchemaMeaning.RefFreeIsFixed | apps/star-controller/src/manifest_resources.rs:226-256 | a value without references comes out unchanged |
| SchemaMeaning.JoinedAcceptsBoth | apps/star-controller/src/manifest_resources.rs:226-240 | a reference with siblings accepts what target and siblings both accept |
| SchemaMeaning.Preserved | apps/star-controller/src/manifest_resources.rs:193-258 | by induction over bound and value, original and output accept the same instances |
| SchemaMeaning.InliningPreservesMeaning | apps/star-controller/src/manifest_resources.rs:193-258 | when `resolve_schema` succeeds its output is free of references and accepts exactly the instances the original accepts |
| SchemaMeaning.MeaningNeedsNoMore | apps/star-controller/src/manifest_resources.rs:200-202 | following references further than the bound changes nothing once inlining has succeeded |
| SchemaMeaning.CleanIsMonotone | apps/star-controller/src/manifest_resources.rs:200-202 | what is clean within a bound that suffices is clean within any larger one |
| SchemaLimits.FlatSchemasKeepTheirMeaningExactlyWhen | apps/star-controller/src/manifest_resources.rs:206-256 | a schema without subschemas keeps its meaning, in every dialect and for every instance, if and only if its data holds no `$ref` member |
| SchemaLimits.DataIsRewritten | apps/star-controller/src/manifest_resources.rs:206-240 | the object a `const` demands is replaced by the target of its `$ref` member; the original accepts that object and the output does not |
| SchemaLimits.NumberExactlyWhen | apps/star-controller/src/manifest_resources.rs:206-240 | a value comes out as the text "number" if and only if it is that text or a lone reference to such a value |
| SchemaLimits.OutputLeavesExactlyWhen | apps/star-controller/src/manifest_resources.rs:493-518 | by induction over bound and value, the output holds a refused keyword if and only if a `type` in the document comes out as "number" |
| SchemaLimits.OutputStaysInSubsetExactlyWhen | apps/star-controller/src/manifest_resources.rs:193-258 | the same of the resolver with its stack, for every package, document and bound |
| SchemaLimits.InliningAgainExactlyWhen | apps/star-controller/src/manifest_resources.rs:193-258 | inlining the output again gives the same output, wherever it is placed, or fails by exactly that condition |
| SchemaLimits.OutputMayLeaveTheSubset | apps/star-controller/src/manifest_resources.rs:493-518 | a document whose output holds a keyword value the check refuses |
| SchemaResolvers.SchemaResolver.LoadFinal | apps/star-controller/src/manifest_resources.rs:318-355 | a document is read at most once and the cache holds what the package holds |
| SchemaResolvers.SchemaResolver.Follow | apps/star-controller/src/manifest_resources.rs:260-285 | a reference is followed as the value-level function follows it |
| SchemaResolvers.SchemaResolver.ResolveSchema | apps/star-controller/src/manifest_resources.rs:193-258 | the recursion with cache and stack computes the inliner's function and restores the stack on success |
| SchemaResolvers.SchemaResolver.ResolveMembersOf | apps/star-controller/src/manifest_resources.rs:226-249 | the loop over members computes all results or fails |
| SchemaResolvers.SchemaResolver.ResolveItemsOf | apps/star-controller/src/manifest_resources.rs:251-256 | the loop over items computes all results in order or fails |
| SchemaResolvers.SchemaResolver.ResolveRoot | apps/star-controller/src/manifest_resources.rs:157-165 | one schema of an action is resolved from its own document with an empty stack, whatever was resolved before |
| Lifecycles.CodexLifecycle.ObserveInstance | apps/star-controller/src/lifecycle.rs:305-325 | an instance is made known or refreshed, never revived |
| Lifecycles.CodexLifecycle.SessionStarted | apps/star-controller/src/lifecycle.rs:88-116 | the projection after a session start is the value-level one |
| Lifecycles.CodexLifecycle.UserPromptSubmitted | apps/star-controller/src/lifecycle.rs:118-133 | the same for a prompt |
| Lifecycles.CodexLifecycle.ActivityStarted | apps/star-controller/src/lifecycle.rs:327-342 | the same for activity that starts, refused on unknown tasks |
| Lifecycles.CodexLifecycle.ActivityFinished | apps/star-controller/src/lifecycle.rs:344-360 | the same for activity that ends, refused at zero |
| Lifecycles.CodexLifecycle.RootStopped | apps/star-controller/src/lifecycle.rs:157-165 | the same for the root stop |
| Lifecycles.CodexLifecycle.McpInitialized | apps/star-controller/src/lifecycle.rs:167-186 | the same for a new connection |
| Lifecycles.CodexLifecycle.McpEof | apps/star-controller/src/lifecycle.rs:188-195 | the same for the end of a connection, refused on unknown ones |
| Lifecycles.CodexLifecycle.MarkExited | apps/star-controller/src/lifecycle.rs:197-217 | the same for an exit, with the loop over the instance's tasks |
| Lifecycles.CodexLifecycle.MarkUnknown | apps/star-controller/src/lifecycle.rs:222-231 | the same for an instance in doubt |
| Lifecycles.CodexLifecycle.ReconcileOwners | apps/star-controller/src/lifecycle.rs:237-258 | closing the instances with a missing owner one by one closes them all at once |
| Lifecycles.CodexLifecycle.MakeDecision | apps/star-controller/src/lifecycle.rs:260-289 | decision and idle time are the value-level ones |
| LifecycleFacts.NextKeeps | apps/star-controller/src/lifecycle.rs:81-378 | every call keeps the invariant of tasks and idle time |
| LifecycleFacts.RunKeeps | apps/star-controller/src/lifecycle.rs:81-378 | so does every run |
| LifecycleFacts.WorkIsAccountedFor | apps/star-controller/src/lifecycle.rs:327-374 | a positive counter means active, an active task has no root stop or a positive counter, and no idle time runs beside it |
| LifecycleFacts.IdleBegan | apps/star-controller/src/lifecycle.rs:281-288 | a running idle time was begun by a decision that announced its deadline, undisturbed since |
| LifecycleFacts.ShutdownRespectsTheLease | apps/star-controller/src/lifecycle.rs:260-289 | a shutdown with an instance alive follows an announcement at least 30 seconds earlier with no prompt or known activity in between |
| LifecycleFacts.AnnouncedDeadlineIsKept | apps/star-controller/src/lifecycle.rs:260-289 | an undisturbed announcement is repeated until its deadline and carried out from then on |
| LifecycleFacts.ConnectionsDoNotMatter | apps/star-controller/src/lifecycle.rs:3-5 | open connections never change a decision |
| LifecycleEffects.ReconciliationExitsExactlyTheAbandoned | apps/star-controller/src/lifecycle.rs:237-258 | exactly the live instances with a known and absent owner exit, with exactly their tasks closed; everything else stays as it was |
| LifecycleEffects.ExitEffect | apps/star-controller/src/lifecycle.rs:197-217 | an exit closes the instance and exactly its own tasks |
| LifecycleEffects.ExitedStaysExited | apps/star-controller/src/lifecycle.rs:305-325 | over whole runs an exited instance is never revived |
| LifecycleEffects.ObserveEffect | apps/star-controller/src/lifecycle.rs:305-325 | an observation makes an instance known or refreshes it, and keeps an owner that was known where none is given |
| LifecycleEffects.DoubtEffect | apps/star-controller/src/lifecycle.rs:222-231 | doubt makes an instance unknown exactly where it has not exited |
| LifecycleEffects.SessionEffect | apps/star-controller/src/lifecycle.rs:88-116 | a session keeps what runs on a task and moves it to the instance |
| LifecycleEffects.PromptEffect | apps/star-controller/src/lifecycle.rs:118-133 | a prompt takes the root stop back, makes the task active and ends the idle time |
| LifecycleEffects.StartedEffect | apps/star-controller/src/lifecycle.rs:327-342 | activity that starts adds one to its own counter within 32 bits and ends the idle time |
| LifecycleEffects.FinishedEffect | apps/star-controller/src/lifecycle.rs:344-360 | activity that ends takes one from its own counter, and the task rests exactly where its root was stopped and nothing is left |
| LifecycleEffects.RootStopEffect | apps/star-controller/src/lifecycle.rs:157-165 | a root stop lets the task rest exactly where nothing runs on it |
| LifecycleEffects.ConnectionEffect | apps/star-controller/src/lifecycle.rs:167-195 | a connection is kept with its task and instance, and is open until its end was seen |
| LifecycleEffects.DecisionTable | apps/star-controller/src/lifecycle.rs:260-289 | each decision if and only if: unknown instances, active tasks, all gone or thirty seconds idle |
| LifecycleEffects.RunningIsBegunLessOver | apps/star-controller/src/lifecycle.rs:327-360 | over whole runs without exits, what runs of an activity on a task is what was begun less what is over |
| Gates.ConcurrencyGate.Poll | apps/star-controller/src/concurrency_gate.rs:56-77 | one look grants the request's own locks and a place exactly if the tool is below the limit and none of the request's locks is held, or changes nothing, and no counter overflows |
| Gates.ConcurrencyGate.Acquire | apps/star-controller/src/concurrency_gate.rs:46-84 | the request is granted, with exactly the locks it lists, at the first look that finds it grantable; a timeout leaves the gate to the others |
| Gates.ConcurrencyGate.Drop | apps/star-controller/src/concurrency_gate.rs:87-99 | the loop over locks and the counter give back exactly what the lease held |
| GateFacts.GrantKeepsLedger | apps/star-controller/src/concurrency_gate.rs:66-76 | a grant adds its lease to the ledger |
| GateFacts.DropKeepsLedger | apps/star-controller/src/concurrency_gate.rs:87-99 | a drop takes its lease out of the ledger |
| GateFacts.GrantableExactlyWhen | apps/star-controller/src/concurrency_gate.rs:56-65 | a request is grantable exactly if its tool has a place left among the live requests and none of them lists one of its locks |
| GateFacts.GateIsTheLedger | apps/star-controller/src/concurrency_gate.rs:46-99 | after every run held locks are exactly those the live requests list and counters count live requests within 16 bits |
| GateFacts.LeasesHoldWhatWasAsked | apps/star-controller/src/concurrency_gate.rs:56-77 | a lease has the tool of its request and exactly the locks it lists |
| GateFacts.NoTwoLiveRequestsShareALock | apps/star-controller/src/concurrency_gate.rs:62-66 | after every run no two live requests list a common lock |
| GateFacts.LimitIsKept | apps/star-controller/src/concurrency_gate.rs:66 | requests of a tool that agree on a limit never hold more places than that |
| GateFacts.WaitersAreNeverInTheWay | apps/star-controller/src/concurrency_gate.rs:46-84 | once no live lease has one of its locks and its tool has a place, a request is granted at its next look, whoever waits |
| GateFacts.DroppingAllRestores | apps/star-controller/src/concurrency_gate.rs:87-99 | dropping all leases in any order restores the gate as it was made |

## Left out

- InliningPreservesMeaning: one direction only. The condition on data is sufficient; it is not necessary for a schema with subschemas, because a rewritten `const` may stand where its outcome does not matter. For schemas without subschemas both directions are proved.
- EveryReachableStoreReloads: assumes valid result refs in every published graph; `PublishReloadsExactlyWhen` has both directions for one call, a later result can make an unchecked graph loadable again.
- AttemptsCountContinues: between two restarts, whatever writes fail; a restart goes back to the last attempt written, so `AttemptsCountAcrossRestarts` asks that writes succeed.
- Launch: the policy, permission, gate and approval checks before the first record, executable hashing and capability selection are an opaque admitted guard; only the approval's Operation status is kept.
- Foreign calls on the Operation of an execution: every theorem of `CodexTheorems` and `CodexRuns` assumes that nobody but the execution's own commands reports its success (`Harmless`). Failures, cancellations, progress and process reports by others are included, and so is every call on other Operations.
- CodexController: holds one execution, as the source serialises commands on one; commands are run to their end without a crash there, crashes are steps of `CodexProtocol`.
- Order of errors: the inliner's failures are one outcome; which of several errors is reported first is not modelled.
- The App Server: its wire protocol and process handling; spawning, initializing and the thread request are one step with one answer, and a server that fails them is refused or lost.
- Concurrency between two commands on the same execution: they are serialised.
- Writes that are done and then reported as failed, as after the rename of a file: a failing write is a write not done. In the Operation and goal stores such a write leaves memory and disk as a successful one does, so the theorems about their states include it and only the answers differ; at start-up the store stays closed and the next start finds what a successful one would have left. The theorems of `CodexTheorems` and `CodexRuns` rest on the exclusion, because the commands branch on the answer: none of them is claimed of runs with such a write.
- File formats and file handling: JSON text, atomic replacement, access control lists, duplicate keys, schema ids and versions, the generation counter.
- SHA-256 and canonical JSON: a fingerprint is the content it digests. The size of a goal configuration in canonical JSON is a sum of text lengths, and its keys are integers in their order.
- Texts are sequences of characters: byte lengths and the full set of Unicode blanks in `trim` are not modelled.
- Stage graphs: edges, cycles, parallel groups and the sorting of their lists are one opaque predicate, since no call of the store edits them.
- The event sequence of an Operation and the revisions of an execution are unbounded; their 64-bit limits and the storage range of revisions are not modelled.
- Schema resources: path canonicalisation, reparse points, byte limits, the validity of the output as a Draft 2020-12 schema, `unevaluated*`, `$id` and `$anchor`; regular expressions and assertion keywords are parameters. The identity of a reference is the pair of path and fragment, not their text joined by `#`.
- `apply_schema_defaults`, the bindings of actions and the checks of schema roots.
- The approval, trust and coordination stores, the registry watcher, authenticode, autostart and the command line: mostly one-branch checks and foreign calls.
