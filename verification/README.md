# A verified model of the apply/prune engine

This project models, in Dafny, how cli-utils decides what to apply and what to prune, in which order, and what the
inventory remembers afterwards, and proves what a caller may rely on. Three smaller components that the engine
depends on are modelled beside it: the event funnel of the status watcher, the two text codecs (inventory keys and the
depends-on annotation), and the computation of a resource's status.

`dafny verify dfyconfig.toml` checks everything.

## How the model is built

**Two forms of each algorithm.** Code that works by changing things is modelled as methods and classes with the
source's own fields and loops (`Graph`, `Manager`, `WaitTask`, `TaskQueueBuilder`, `Collector`, `TaskContext`,
`InvAddTask`, `DeleteOrUpdateInvTask`, `TaskStatusRunner`, the apply and prune loops, the list operations). Each method
is proved equal to a function on values (`WaitSpec`, `Graphs`, `DependencyGraph`, `Solver`, `Actuate`, `Engine`), and the
theorems are about those functions. What the functions themselves mean is stated a second time, without naming them, in
terms of records, fields, labels and messages (`WaitOutcomes`, `ActuationOutcomes`, `DependencyFilter.VerdictKinds`,
`DependencyGraphFacts`, `KStatusKinds`, `Ordering`), and carried over to whole runs (`WaitEvidence`, `RunTurns`). Maps whose iteration order is random in Go are walked in an arbitrary order, so a
contract that fixes the result is also a proof that the order does not matter.

**The run as a state machine.** `Engine.Step` is one move of one goroutine: the runner receives a status event, an error
event, a cancellation or a task result; a task writes the inventory or deals with its next object; a deadline passes; a
wait task's goroutine wakes up. A label also carries what the cluster answered (any outcome of an apply, a delete, a
write, an annotation update, any verdict of the policy filters), so `Reachable` ranges over every interleaving and every
behaviour of the cluster. A failing inventory write may have taken effect. The wait task's steps in the machine are the
functions that the `WaitTask` methods are proved to compute, and the object steps are those of the apply and prune loops
(`ActuationTasks.ApplyLoopIsRun`, `ActuationTasks.PruneLoopIsRun`).

**From objects to runs.** `Solver.BuildPlan` gives the queue, the registered strategies, the graph and the invalid ids for
any objects with any annotations and any cycles. `SolverFacts.BuildWellPlanned` proves that every such plan meets
`PlanSpec.WellPlanned`, the only thing the run theorems assume, and the theorems in `Applier.dfy` join both ends.

**Assumptions.** The watcher sends one sync event and each task one result. A successful apply leaves a readable object,
so a record is written for it. An object is fetched under its own identity. The policy filters in front of the dependency
filter are arbitrary. JSON is an arbitrary inverse pair that writes only the zero status as `{}`.

## Where the code and its comments differ

- pkg/apply/task/inv_set_task.go:100-104 says that a new resource whose apply failed is dropped from the inventory. Both
  inventory tasks hold the same inventory object, so it is kept; `Applier.ApplyConserves` gives the exact content.
- pkg/apply/task/inv_set_task.go:44-46 says that a skipped delete keeps the inventory from being deleted. It does not:
  `Counterexamples.SkippedDestroyForgets` is a run, `Applier.DestroyConserves` the exact condition.
- pkg/apply/filter/dependency-filter.go:116 and 152 blame broken sorting for both "premature" failures. The first is
  unreachable (`RunSafety.NeverPremature`). The second is reachable with correct sorting when a status update lands after
  the wait task stopped itself and before its result is read (`Counterexamples.LateUpdateIsFatal`);
  `DependencyFilter.PrematureReconcileIff` says exactly when it happens, and `RunPunctual.PunctualNeverFatal` that it
  needs such an update.
- pkg/apply/solver/solver.go:186-190 registers prune objects only with pruning on. With pruning off they leave the
  inventory although nothing deletes them: `Applier.NoPruneForgets`, with the exact condition.
- pkg/object/objmetadata.go:68-69 lets a stored name hold double underscores for colons; a name with an underscore of its
  own is not read back, and can even take the key of another reference: `InventoryKeys.KeyRoundTripIff`,
  `InventoryKeys.KeysCollide`.

## Model

| member | source | states |
|---|---|---|
| `Applier.ApplySafety` | pkg/apply/applier.go:87-267 | In every state of every run on any inputs: if an object was applied, everything it needs first, through any chain of CRDs, namespaces and annotations, was applied and has reconciled. |
| `Applier.ApplyRestsOnReports` | pkg/apply/taskrunner/condition.go:55-72 | For everything an applied object needs first, through any chain, this run saw a report of status Current at the generation it applied or a later one. |
| `Applier.DeleteSafety` | pkg/apply/filter/dependency-filter.go:66-73 | In every state of every run: if an object was deleted, everything that needs it, through any chain, was deleted and is gone. |
| `Applier.ApplyConserves` | pkg/apply/task/inv_set_task.go:87-177 | After a successful apply an id is stored if and only if it is a prior invalid id, a valid given id, or (pruning on) a prior id found in the cluster, valid, and neither abandoned nor deleted and gone. |
| `Applier.NothingLost` | pkg/apply/task/inv_set_task.go:67-86 | With pruning on, a prior or valid given id missing from the new inventory was abandoned, gone, or not there to be fetched. |
| `Applier.NothingLostSilently` | pkg/apply/prune/prune.go:135-170 | With pruning on, an id missing from the new inventory was not there to be fetched, or was deleted, or had its turn to be pruned, where the inventory's mark was taken off because an annotation protects it or it was the same cluster object as one this run applied. |
| `Applier.NoPruneForgets` | pkg/apply/solver/solver.go:186-190 | With pruning off a prior id survives if and only if it is given again or invalid. |
| `Applier.DestroyConserves` | pkg/apply/destroyer.go:78-199 | After a successful destroy the inventory is gone if and only if every record is harmless (no failed delete, no failed or timed-out wait); if it survives, it holds exactly what is left. |
| `Applier.PruneObjsExactly` | pkg/apply/prune/prune.go:236-262 | The objects to prune are exactly the prior ids that are not given locally and were found, each once, each as it was found. |
| `Applier.FetchFailsIff` | pkg/apply/prune/prune.go:248-259 | Fetching fails exactly when some prior id that is not given locally answers with a failure other than not found or no match. |
| `Applier.GetPruneObjs` | pkg/apply/prune/prune.go:236-262 | The loop computes the listing that PruneObjsExactly describes, and fails exactly when some prior id that is not given locally answers with a failure. |
| `Applier.PlanForFacts` | pkg/apply/applier.go:111-206 | Whatever was fetched and whatever is invalid, the plan is well planned, and its ids are exactly the valid given ones and (pruning on) the valid found prior ones. |
| `Applier.Prepare` | pkg/apply/applier.go:92-244 | Run's preparation fails exactly when an id to prune answers with a failure, or else for its validation policy (unknown, or exit early with errors); on success the queue, graph, records and invalid set are those of the plan the theorems speak about. |
| `Applier.RegisterInvalid` | pkg/apply/applier.go:223-226 | Every collected invalid id ends up in the task context, and no other. |
| `RunSafety.AppliedOnlyOnSettled` | pkg/apply/filter/dependency-filter.go:54-182 | For any well-planned queue: whatever an applied object transitively depends on is applied and reconciled. |
| `RunSafety.DeletedOnlyUnderGone` | pkg/apply/filter/dependency-filter.go:66-73 | For any well-planned queue: whatever transitively depends on a deleted object is deleted and gone. |
| `RunSafety.NeverPremature` | pkg/apply/filter/dependency-filter.go:114-122 | No run, dry runs included, reaches the "premature actuation" failure. |
| `RunSafety.WaitAlwaysTracks` | pkg/apply/taskrunner/task.go:148-410 | In every reachable state the current wait task's lists, records and announcements agree. |
| `RunSafety.DeletesSpareApplied` | pkg/apply/task/prune_task.go:57-73 | No delete request of a run carries an empty UID or the UID of any object applied in that run. |
| `RunSafety.OnlyReconcileChanges` | pkg/apply/taskrunner/runner.go:97-224 | Only apply and prune steps change anything but reconcile statuses. |
| `WaitEvidence.StatusesBacked` | pkg/apply/taskrunner/task.go:145-410 | In every state of every run each reconcile status rests on something the run has seen: a success on a report of the awaited status no older than the apply (or of another object under a deleted one's name), a failure on a reported failure or a recreation, a timeout on a passed deadline, a skip on an actuation that failed or was skipped. |
| `WaitEvidence.AppliedSeenCurrent` | pkg/apply/taskrunner/condition.go:55-72 | A settled apply was reported Current at the recorded generation or a later one. |
| `WaitEvidence.DeletedSeenGone` | pkg/apply/taskrunner/task.go:282-307 | A settled delete was reported not found, or with another UID. |
| `WaitEvidence.ReportSettles` | pkg/apply/taskrunner/task.go:317-364 | A report for a pending id settles it exactly when it shows another object under a deleted one's name, or the same object in the awaited status at the recorded generation or later. |
| `RunTurns.ApplyDecided` | pkg/apply/task/apply_task.go:94-175 | In every state after an object's turn to be applied: it is recorded as applied, with the answer's UID and generation, exactly when everything in front of the request agreed and the request was answered; as skipped exactly when a filter refused it; otherwise as failed. |
| `RunTurns.PruneDecided` | pkg/apply/prune/prune.go:99-203 | In every state after an object's turn to be pruned: deleted, skipped, abandoned and sent a delete exactly under the stated conditions on its UID, the policy filters' verdict, the records of everything that depends on it, the UIDs applied in the run, and the cluster's answer. |
| `RunTurns.HadTurn` | pkg/apply/taskrunner/runner.go:171-205 | Whatever is no longer pending has had its turn, as the object at its task's cursor. |
| `RunTurns.KeptFrom` | pkg/apply/taskrunner/runner.go:97-224 | Once an object is no longer pending, nothing but its reconcile status changes, and it is neither abandoned nor sent a delete any more. |
| `RunTurns.AbandonedForCause` | pkg/apply/prune/prune.go:135-170 | Every abandoned id had its turn, where its annotation was removed or its UID is that of an object applied in the run. |
| `RunInvariant.ReachableCore` | pkg/apply/taskrunner/runner.go:97-224 | Every reachable state: an object is pending exactly until its turn, records keep their planned strategy, what succeeded rests on settled objects, and the wait task is in order. |
| `RunInventory.AttemptedAppliesStored` | pkg/apply/task/inv_add_task.go:74-88 | Write-ahead: in every reachable state, aborted and failed runs included, every attempted apply is in the stored inventory. |
| `RunInventory.InventoryFailureEndsRun` | pkg/apply/taskrunner/runner.go:188-198 | An inventory task ends the run with "task failed" exactly when its checks fail before anything is applied, or its write fails outside a dry run. |
| `RunInventory.FinalInventoryExact` | pkg/apply/task/inv_set_task.go:87-177 | After a successful apply run the stored inventory is exactly the planned ids neither gone nor abandoned and the known invalid ones. |
| `RunInventory.FinalRefsExactly` | pkg/apply/task/inv_set_task.go:87-164 | Once every planned object is resolved, the seven unions, the difference and the last union amount to: neither gone nor abandoned, or known and invalid. |
| `RunInventory.NothingForgottenSilently` | pkg/apply/task/inv_set_task.go:67-86 | In every reachable state of an apply run a prior id missing from the stored inventory was abandoned, is gone, or was never planned and is valid. |
| `RunInventory.DestroyedIff` | pkg/apply/task/inv_set_task.go:49-59 | After a successful destroy run the inventory is gone exactly when no delete failed and no wait failed or timed out. |
| `RunInventory.DestroySuccessfulIff` | pkg/apply/task/inv_set_task.go:195-211 | The three emptiness tests amount to: every record succeeded or was skipped, and its wait neither failed nor timed out. |
| `RunInventory.FinalDestroyExact` | pkg/apply/task/inv_set_task.go:49-59 | An inventory that survives a destroy holds exactly what is left. |
| `RunInventory.DryRunWritesNothing` | pkg/apply/task/inv_set_task.go:161-166 | No dry run changes the stored inventory, sends a delete or abandons an object. |
| `RunEvents.EventsBracketed` | pkg/apply/taskrunner/runner.go:171-224 | In every reachable state the group events are Started/Finished pairs of the queue in order; nil is returned only after the whole queue. |
| `RunEvents.AbortEndsRun` | pkg/apply/taskrunner/runner.go:113-137 | After an error event or cancellation no task starts, at most the current one finishes, no status is taken in any more, and nil is never returned. |
| `RunProgress.CancelReturns` | pkg/apply/taskrunner/runner.go:207-222 | From every reachable state of a run in progress, cancelling it and letting its current task finish leads to the end, by moves of the tasks and the runner alone. |
| `RunWaiting.FrozenAfterWait` | pkg/apply/taskrunner/task.go:317-410 | From the moment an object's wait task is over, its record never changes again. |
| `RunPunctual.PunctualNeverFatal` | pkg/apply/filter/dependency-filter.go:150-158 | Without a status update that lands on a stopped wait task, no object fails with "premature reconcile". |
| `Counterexamples.LateUpdateIsFatal` | pkg/apply/filter/dependency-filter.go:150-158 | A concrete well-planned run, without errors or cancellation, that reaches "premature reconcile". |
| `Counterexamples.SkippedDestroyForgets` | pkg/apply/task/inv_set_task.go:42-59 | A concrete destroy run whose only delete is skipped and whose inventory is deleted all the same. |
| `DependencyFilter.PassIffSettled` | pkg/apply/filter/dependency-filter.go:80-182 | Outside dry runs the filter passes exactly when every related object is valid and settled under the same strategy. |
| `DependencyFilter.VerdictKinds` | pkg/apply/filter/dependency-filter.go:54-182 | In dry runs too: the filter passes exactly when every related object is clear, skips exactly when the first one that is not clear is of the other strategy, was skipped or failed, or was not reconciled, and otherwise fails. |
| `DependencyFilter.PrematureReconcileIff` | pkg/apply/filter/dependency-filter.go:150-158 | "Premature reconcile" is the verdict exactly when the first relation that is not valid and settled succeeded and is still unreconciled. |
| `DependencyFilter.VerdictHasCause` | pkg/apply/filter/dependency-filter.go:54-78 | Every objection is the objection of one related object. |
| `ActuationTasks.FilterRelation` | pkg/apply/filter/dependency-filter.go:80-182 | The check of one relation on the shared context gives the specified verdict. |
| `ActuationTasks.FilterContext` | pkg/apply/filter/dependency-filter.go:54-78 | The loop over the graph's relations returns the first objection. |
| `ActuationTasks.ApplyObject` | pkg/apply/task/apply_task.go:94-175 | One object gets exactly the record the outcome calls for and no other record changes; it counts as applied exactly when it could be read, no filter refused it, every related object was clear, its mutation worked and the request was answered. |
| `ActuationTasks.ApplyObjects` | pkg/apply/task/apply_task.go:88-178 | The loop goes on after every outcome, each object judged on the records left by the one before. |
| `ActuationTasks.PruneObject` | pkg/apply/prune/prune.go:99-203 | One object gets its record and no other changes; it is abandoned, a delete with its UID is sent, and it counts as deleted exactly under the conditions of ActuationOutcomes (Abandons, Sends, Deletes), the dependency filter's part being that every related object is clear. |
| `ActuationTasks.PruneObjects` | pkg/apply/task/prune_task.go:53-79 | The applied UIDs are taken once at the start, then each object is pruned in order on the records left by the one before. |
| `ActuationOutcomes.ApplyOutcome` | pkg/apply/task/apply_task.go:94-175 | The record of one apply, as conditions on the answers: when it is applied, skipped or failed, and what UID and generation are kept. |
| `ActuationOutcomes.PruneOutcome` | pkg/apply/prune/prune.go:99-203 | The record of one prune, whether it is abandoned and whether a delete is sent, as conditions on the answers. |
| `ActuationTasks.ApplyLoopIsRun` | pkg/apply/task/apply_task.go:88-178 | An uninterrupted apply loop is a run of the state machine with the loop's records. |
| `ActuationTasks.PruneLoopIsRun` | pkg/apply/prune/prune.go:89-206 | An uninterrupted prune loop is a run of the state machine with the loop's records, abandoned set and deletes. |
| `InventoryTasks.GetObjStatus` | pkg/apply/task/inv_add_task.go:155-175 | Every reference gets one pending status, for deletion exactly if it is to be pruned. |
| `InventoryTasks.InvAddTask.Start` | pkg/apply/task/inv_add_task.go:56-90 | The references become the union with the objects, each with its pending status, and are stored unless this is a dry run; nothing changes when a check fails first. |
| `InventoryTasks.DeleteOrUpdateInvTask.DestroySuccessful` | pkg/apply/task/inv_set_task.go:195-211 | Computes the specified condition on the records. |
| `InventoryTasks.DeleteOrUpdateInvTask.KeptRefs` | pkg/apply/task/inv_set_task.go:87-156 | The chain of list operations computes the final references, without duplicates. |
| `InventoryTasks.DeleteOrUpdateInvTask.UpdateInventory` | pkg/apply/task/inv_set_task.go:87-177 | Memory and cluster get the final references and the records' statuses; a dry run changes neither. |
| `InventoryTasks.DeleteOrUpdateInvTask.Start` | pkg/apply/task/inv_set_task.go:49-59 | The stored inventory is deleted or replaced as the state machine's final task does it. |
| `WaitProofs.StartTracks` | pkg/apply/taskrunner/task.go:145-193 | Starting gives duplicate-free disjoint lists; a known id is Pending exactly when listed as pending; the last event of each known id is its record; the task stops itself exactly when nothing is pending. |
| `WaitProofs.StatusUpdateTracks` | pkg/apply/taskrunner/task.go:314-410 | Every status update keeps that invariant, whenever it lands. |
| `WaitProofs.SelfCancelMeansReconciled` | pkg/apply/taskrunner/task.go:404-409 | When an update makes the task stop itself, none of its known ids is Pending. |
| `WaitProofs.TimeoutTracks` | pkg/apply/taskrunner/task.go:195-209 | After the deadline the pending ids are recorded and announced as timed out and the invariant still holds. |
| `WaitProofs.StatusUpdateFrame` | pkg/apply/taskrunner/task.go:314-410 | A status update changes at most reconcile statuses of the task's own ids. |
| `WaitOutcomes.StartOutcome` | pkg/apply/taskrunner/task.go:148-193 | At the start an id is skipped exactly when it was not actuated; otherwise a recreated one is reconciled after a delete and failed after an apply; otherwise it is reconciled exactly when its last status is the awaited one at the recorded generation or later; everything else is pending. |
| `WaitOutcomes.UpdateOutcome` | pkg/apply/taskrunner/task.go:317-410 | What an update makes of a pending, a failed, a reconciled and a skipped id, as conditions on its record and last status; no other record changes. |
| `WaitOutcomes.MetIff` | pkg/apply/taskrunner/condition.go:55-72 | The condition is met exactly when the id's last status is the awaited one and its generation, 0 without a resource, is at least the recorded one. |
| `WaitOutcomes.StopsWhenNothingPending` | pkg/apply/taskrunner/task.go:404-409 | A running task stops itself exactly when an update it heeds leaves nothing pending. |
| `WaitTasks.ConditionsMet` | pkg/apply/taskrunner/condition.go:42-72 | True exactly when every id meets the condition, which WaitOutcomes.MetIff spells out: the awaited status, on information no older than the recorded generation. |
| `WaitTasks.WaitTask.StartInner` | pkg/apply/taskrunner/task.go:145-193 | The loop computes the specified start; WaitOutcomes.StartOutcome says what that makes of each id. |
| `WaitTasks.WaitTask.StatusUpdate` | pkg/apply/taskrunner/task.go:314-410 | The update computes the specified transition of lists, records, events and context; WaitOutcomes.UpdateOutcome says what that makes of each id. |
| `WaitTasks.WaitTask.SendTimeoutEvents` | pkg/apply/taskrunner/task.go:195-209 | Computes the specified timeout. |
| `WaitTasks.WaitTask.Skipped` | pkg/apply/taskrunner/task.go:217-230 | True exactly for the failed and skipped actuations specified. |
| `WaitTasks.WaitTask.ChangedUID` | pkg/apply/taskrunner/task.go:238-280 | True exactly when both UIDs are known and differ. |
| `WaitTasks.WaitTask.HandleChangedUID` | pkg/apply/taskrunner/task.go:282-307 | A recreated object counts as reconciled after a delete and as failed after an apply. |
| `Runner.TaskStatusRunner.Run` | pkg/apply/taskrunner/runner.go:53-224 | On any sequence of messages: one finished task per result; "task failed" is returned exactly on the first failed result; nil only after a result for every task and never after an abort; an abort is noticed exactly when an error or cancellation arrives, cancels the current task, starts no other, lets at most that one finish and gives its own reason; the cache holds every object's last status and wait tasks hear exactly of their own ids, up to an abort. |
| `Runner.TaskStatusRunner.NextTask` | pkg/apply/taskrunner/runner.go:226-253 | Starts and announces the next task, or reports that the queue is empty. |
| `InventoryManager.Manager.ObjectStatus` | pkg/inventory/manager.go:32-42 | Finds the position of the record that the map holds for the id, or nothing if the id is unknown. |
| `InventoryManager.Manager.SetObjectStatus` | pkg/inventory/manager.go:68-77 | The list keeps one entry per id and its meaning is the map update. |
| `InventoryManager.Manager.SetReconcileStatus` | pkg/inventory/manager.go:286-294 | Changes the reconcile status of a known id, and reports an unknown one without changing anything. |
| `InventoryManager.Manager.ObjectsWithActuationStatus` | pkg/inventory/manager.go:44-54 | Lists exactly the ids with that strategy and actuation, each once. |
| `InventoryManager.Manager.ObjectsWithReconcileStatus` | pkg/inventory/manager.go:56-66 | Lists exactly the ids with that reconcile status, each once. |
| `InventoryManager.Manager.AppliedResourceUIDs` | pkg/inventory/manager.go:118-131 | The set of non-empty UIDs of the successful applies. |
| `InventoryManager.Manager.IsActuated` | pkg/inventory/manager.go:78-87 | True exactly when the map holds that strategy and actuation for the id. |
| `InventoryManager.Manager.AddSuccessfulApply` | pkg/inventory/manager.go:89-101 | Records UID and generation with a pending reconcile, replacing any record of the id. |
| `InventoryManager.Manager.AddSuccessfulDelete` | pkg/inventory/manager.go:153-166 | Records the UID with a pending reconcile, replacing any record of the id. |
| `SolverFacts.BuildWellPlanned` | pkg/apply/solver/solver.go:116-226 | For any objects, annotations, cycles and earlier invalid ids: every planned id has exactly one slot under its strategy, relations of the same strategy sit in earlier tasks, each actuation task is followed by its wait, and the inventory tasks frame the queue. |
| `SolverFacts.HydrateFacts` | pkg/object/graph/depends.go:52-85 | The hydrated sets are the layers' objects, in layer order, without empty sets, each id once. |
| `SolverFacts.ReverseFacts` | pkg/object/graph/depends.go:127-139 | Deep reversal turns a rising sequence of layers into a falling one with the same members. |
| `SolverTheorems.BuildCovers` | pkg/apply/solver/solver.go:116-226 | Each given object with a valid id is in exactly one place of exactly one task: apply, or prune if pruning is on. |
| `SolverTheorems.BuildOrders` | pkg/apply/solver/solver.go:116-226 | When x needs y first, y is applied by an earlier task and deleted by a later one. |
| `SolverTheorems.InvalidExactly` | pkg/apply/solver/solver.go:125-150 | An id ends up invalid exactly when it was before, has a bad annotation, or can reach a dependency cycle. |
| `SolverTheorems.RelatedExactly` | pkg/apply/solver/solver.go:129-140 | The relation the filter looks at is exactly what the objects' definitions and annotations ask for. |
| `SolverTheorems.PlannedIds` | pkg/apply/solver/solver.go:166-190 | The registered ids are exactly the valid apply ids and (pruning on) the valid prune ids, under their strategies. |
| `SolverTheorems.SlotHolds` | pkg/apply/solver/solver.go:166-214 | Every slot holds one of the given objects, valid and of the task's kind. |
| `SolverOrder.QueueOrder` | pkg/apply/solver/solver.go:166-206 | Of two objects of one strategy the one in the lower layer of the dependency graph is applied in an earlier task and deleted in a later one; objects of one layer share a task, in the fixed order when applied and in the opposite order when deleted. |
| `SolverOrder.LastListedActuated` | pkg/object/graph/depends.go:52-85 | When an id is given more than once, the object that is actuated is the last one listed. |
| `SolverOrder.WaitsTimed` | pkg/apply/solver/solver.go:250-265 | A wait has a deadline exactly when the timeout of its kind is positive. |
| `TaskQueueBuilder.TaskQueueBuilder.Build` | pkg/apply/solver/solver.go:116-226 | Determinism: whatever order the maps are walked in, the queue, graph, records and invalid ids are one function of the inputs. |
| `TaskQueueBuilder.TaskQueueBuilder.GraphObjects` | pkg/apply/solver/solver.go:125-146 | Graphs the valid objects, collects bad annotations and cycles, and returns one list per layer. |
| `TaskQueueBuilder.TaskQueueBuilder.NewActTask` | pkg/apply/solver/solver.go:228-248 | The task holds the objects that are still valid. |
| `TaskQueueBuilder.TaskQueueBuilder.NewWaitTask` | pkg/apply/solver/solver.go:250-265 | The task waits for the ids that are still valid. |
| `TaskQueueBuilder.HydrateSetList` | pkg/object/graph/depends.go:52-85 | For any listing of the layers the sets are those of the specification, so the order within a layer is fixed. |
| `TaskQueueBuilder.SortObjects` | pkg/ordering/sort.go:35-46 | The result is strictly ascending and has the same objects. |
| `TaskQueueBuilder.ReverseSetList` | pkg/object/graph/depends.go:127-139 | Reverses the list and every set in place. |
| `Validation.Collector.Collect` | pkg/object/validation/collector.go:20-26 | The invalid ids are always exactly those that the collected errors name. |
| `Validation.Collector.FilterInvalidObjects` | pkg/object/validation/collector.go:33-43 | Keeps the valid objects, in order. |
| `Validation.Collector.FilterInvalidIds` | pkg/object/validation/collector.go:45-49 | Keeps the valid ids, in order, each once. |
| `Validation.ExtractInvalidIDs` | pkg/object/validation/collector.go:51-63 | Lists every id that some error names, once. |
| `DependencyGraphFacts.GraphExactly` | pkg/object/graph/depends.go:22-50 | The vertices are the objects; x has an edge to y exactly when y is the last listed CRD that defines x's kind, or the last listed namespace of x's name, or a given object that x's depends-on or mutation annotation lists; the objects reported invalid are exactly those with an annotation that does not parse, lists an object that is not given, or (depends-on) repeats one. |
| `DependencyGraphFacts.SameTextIff` | pkg/object/graph/depends.go:276-291 | Kinds are compared by their text form; two read the same only when they are the same, unless a kind contains a dot. |
| `DependencyGraphFacts.CRDsExactly` | pkg/object/graph/depends.go:274-299 | The CRD recorded for a kind is the last listed one that defines it; GraphExactly states which objects wait for it. |
| `DependencyGraphFacts.NamespacesExactly` | pkg/object/graph/depends.go:302-325 | The namespace recorded for a name is the last listed one; GraphExactly states which objects wait for it. |
| `DependencyGraph.BuildDependencyGraph` | pkg/object/graph/depends.go:22-50 | The five loops compute the specified graph and list of invalid objects, which GraphExactly describes. |
| `DependencyGraph.LinkDependencies` | pkg/object/graph/depends.go:222-259 | Adds each listed dependency that is in the set once, and reports whether one was outside it or, for depends-on, repeated. |
| `DependencyGraph.AddCRDEdges` | pkg/object/graph/depends.go:274-299 | Both loops together add the specified CRD edges, from objects of any namespace or none. |
| `DependencyGraph.AddNamespaceEdges` | pkg/object/graph/depends.go:302-325 | Both loops together add the specified namespace edges. |
| `DependencyGraph.AddDependsOnEdges` | pkg/object/graph/depends.go:205-272 | Adds the annotated dependencies and lists the objects whose annotation is bad. |
| `DependencyGraph.AddApplyTimeMutationEdges` | pkg/object/graph/depends.go:149-203 | Adds the mutation sources and lists the objects whose annotation is bad. |
| `Graphs.Graph.Sort` | pkg/object/graph/graph.go:146-179 | For every map order: one list per layer; an error exactly when something is left over, naming exactly that, sorted; the graph is unchanged. |
| `Graphs.PeelRound` | pkg/object/graph/graph.go:155-177 | One round takes exactly the leaves and keeps the copied lists in step with the original graph. |
| `Graphs.RemoveVertex` | pkg/object/graph/graph.go:113-121 | Takes one occurrence of the vertex out of every list and the vertex out of the map. |
| `Graphs.Graph.AddEdge` | pkg/object/graph/graph.go:60-82 | Adds the edge in both directions unless it is there. |
| `Graphs.WithEdgeOk` | pkg/object/graph/graph.go:60-82 | Adding an edge adds that edge and no other, and keeps both maps duplicate-free transposes. |
| `Graphs.Graph.Dependencies` | pkg/object/graph/graph.go:123-131 | Lists exactly the objects this one has an edge to. |
| `Graphs.Graph.Dependents` | pkg/object/graph/graph.go:133-142 | On a good graph lists exactly the objects with an edge to this one. |
| `Graphs.EdgeMapKeys` | pkg/object/graph/graph.go:46-58 | The keys in order, whatever order the map yields them in. |
| `Layers.LayersPartition` | pkg/object/graph/graph.go:146-179 | Every vertex is in exactly one layer or among those left over. |
| `Layers.LayerIsLongestPath` | pkg/object/graph/graph.go:146-179 | A vertex's layer is the length of its longest dependency path. |
| `Layers.ResidueIffReachesCycle` | pkg/object/graph/graph.go:166-171 | The vertices left over are exactly those that can reach a cycle. |
| `Layers.EdgesGoDown` | pkg/object/graph/graph.go:146-179 | Every edge of a layered vertex leads to a lower layer. |
| `Ordering.LessConnected` | pkg/ordering/sort.go:55-65 | Two different ids are ordered one way and only one. |
| `Ordering.LessTransitive` | pkg/ordering/sort.go:55-65 | The order is transitive across kinds, namespaces and names. |
| `Ordering.SortedUnique` | pkg/ordering/sort.go:35-46 | A set has only one sorted listing. |
| `Ordering.KindsInOrder` | pkg/ordering/sort.go:69-125 | Kinds listed first come in list order before all others, kinds listed last in list order after all others, and the rest by group, then by kind. |
| `Ordering.WithinKind` | pkg/ordering/sort.go:55-65 | Objects of one kind are ordered by namespace, then by name, character by character. |
| `Ordering.NamespacesFirst` | pkg/ordering/sort.go:69-109 | Namespaces come before everything else. |
| `Ordering.ComputeGroupKind2Index` | pkg/ordering/sort.go:69-109 | Kinds listed first get negative positions in order, kinds listed last positive ones. |
| `ObjMetadataSets.RemoveInPlace` | pkg/object/objmetadata_set.go:61-70 | Swaps the first occurrence with the last element and drops it, keeping all elements of the array. |
| `ObjMetadataSets.RemoveIsDifference` | pkg/object/objmetadata_set.go:61-70 | On a list without duplicates this is set difference. |
| `ObjMetadataSets.Union` | pkg/object/objmetadata_set.go:98-121 | Lists the union, each element once, in order of first occurrence. |
| `ObjMetadataSets.Intersection` | pkg/object/objmetadata_set.go:72-95 | Lists the intersection, each element once, in the first list's order. |
| `ObjMetadataSets.Diff` | pkg/object/objmetadata_set.go:124-145 | Lists the difference, each element once, in the first list's order. |
| `ObjMetadataSets.PickFacts` | pkg/object/objmetadata_set.go:72-145 | What the three operations list has no duplicates, is the right set, and is in order of first occurrence. |
| `TaskContexts.TaskContext.AbandonedObjects` | pkg/apply/taskrunner/context.go:84-92 | Lists exactly the abandoned ids, each once, in an arbitrary order. |
| `TaskContexts.TaskContext.InvalidObjects` | pkg/apply/taskrunner/context.go:100-108 | Lists exactly the invalid ids, each once, in an arbitrary order. |
| `EventFunnel.CounterExact` | pkg/kstatus/watcher/event_funnel.go:45-62 | In every reachable state the counter is the number of accepted inputs whose drain has not finished. |
| `EventFunnel.ClosesOnlyWhenQuiet` | pkg/kstatus/watcher/event_funnel.go:37-64 | The loop has stopped exactly when it noticed the context and every drain has finished; the output is closed only then. |
| `EventFunnel.DrainsNeverStuck` | pkg/kstatus/watcher/event_funnel.go:93-102 | A held event can always be sent and an ended drain can always report. |
| `EventFunnel.InputsInOrder` | pkg/kstatus/watcher/event_funnel.go:93-102 | Per input, events come out in the order taken, at most the held one missing, none once the drain finished or the output closed. |
| `EventFunnel.ClosedForGood` | pkg/kstatus/watcher/event_funnel.go:67-79 | Once the loop has stopped no input is ever accepted and adding one returns the closed error. |
| `EventFunnel.CountInputs` | pkg/kstatus/watcher/event_funnel.go:45-62 | The loop closes after the first prefix of what it receives that holds the cancellation and sums to at most zero. |
| `EventFunnel.LoopAgrees` | pkg/kstatus/watcher/event_funnel.go:37-64 | The state machine's counter and closing are those of the loop on what was delivered to it. |
| `InventoryKeys.KeyRoundTripIff` | pkg/object/objmetadata.go:55-132 | A reference survives storing and parsing exactly when no field contains an underscore; colons do no harm. |
| `InventoryKeys.KeysDiffer` | pkg/object/objmetadata.go:119-132 | Different references without underscores have different keys. |
| `InventoryKeys.KeysCollide` | pkg/object/objmetadata.go:119-132 | Every RBAC name with a colon shares its key with another name, which is read back as the first. |
| `InventoryKeys.ParseKeyIff` | pkg/object/objmetadata.go:70-110 | A text is read as a reference exactly when it is its four fields joined by underscores, with each colon of the name written as a colon or two underscores, and no field has an underscore in it. |
| `InventoryKeys.StoredNames` | pkg/object/objmetadata.go:119-132 | Names are stored as they are, but without colons for exactly the four RBAC kinds. |
| `DataMaps.StoreAndReload` | pkg/inventory/inventorycm.go:42-95 | Storing and reloading references without underscores neither loses, merges nor invents one, and brings back strategy, actuation and reconcile status. |
| `DataMaps.ReloadSucceeds` | pkg/inventory/inventorycm.go:75-95 | Reading back such a map never fails. |
| `DataMaps.StatusRoundTrip` | pkg/inventory/inventorycm.go:136-156 | A formatted status parses to itself, the zero status by way of the empty string. |
| `DataMaps.StatusMapExactly` | pkg/inventory/inventorycm.go:42-73 | An id has a stored status exactly when one is listed: the strategy, actuation and reconcile status of the last one. |
| `DataMaps.BuildDataMap` | pkg/inventory/inventorycm.go:42-73 | The loops compute the specified map; the last status listed for an id wins. |
| `DataMaps.ParseDataMap` | pkg/inventory/inventorycm.go:75-95 | Fails exactly when some key or value does not parse; otherwise gives one entry per key, in an arbitrary order. |
| `DependsOn.RoundTripIff` | pkg/object/dependson/strings.go:32-145 | Formatting and parsing a list gives it back exactly when it is not empty and its fields have no separators and the needed parts, mixing both reference forms. |
| `DependsOn.FormatsIff` | pkg/object/dependson/strings.go:80-110 | A reference can be formatted exactly when its kind and name are not empty. |
| `DependsOn.ParseIff` | pkg/object/dependson/strings.go:112-145 | A text is read as a reference exactly when, trimmed, it is group/kind/name or group/namespaces/namespace/kind/name and no field has a slash in it. |
| `DependsOn.ParseSetIff` | pkg/object/dependson/strings.go:52-72 | An annotation is read as a list exactly when it is the comma-separated texts of the list's references, in order. |
| `DependsOn.FormatDependencySet` | pkg/object/dependson/strings.go:32-50 | The loop computes the specified text or the first failure. |
| `DependsOn.ParseDependencySet` | pkg/object/dependson/strings.go:52-72 | The loop computes the specified list or the first failure, with the references before it. |
| `KStatusFacts.AugmentFixpoint` | pkg/kstatus/status/status.go:184-241 | For every kind and every conditions: once the conditions were written back the computed status is the same, at whatever later time. |
| `KStatusFacts.ComputeShaped` | pkg/kstatus/status/status.go:85-138 | The status decides the conditions: one Reconciling in progress, one Stalled when failed, none when current or terminating; when each status is given is stated kind by kind in KStatusKinds. |
| `KStatusFacts.WriteFacts` | pkg/kstatus/status/status.go:204-239 | Writing one condition keeps the list readable, makes every entry of its type True, and leaves the others alone. |
| `KStatusFacts.CurrentTimeless` | pkg/kstatus/status/core.go:408-466 | Being current does not depend on the clock, for any kind. |
| `KStatusFacts.WriteExactly` | pkg/kstatus/status/status.go:204-239 | Writing one condition rewrites every entry of its type (a new transition time unless it was True), keeps every other entry, appends one exactly when there was none, and fails exactly on the stated malformed entries. |
| `KStatusFacts.AugmentWrites` | pkg/kstatus/status/status.go:186-241 | Augmenting changes nothing but the conditions, and writes exactly the computed one, if any. |
| `KStatusKinds.TerminatingIff` | pkg/kstatus/status/generic.go:25-37 | A resource of any kind is terminating exactly when it has a deletion timestamp. |
| `KStatusKinds.LaggingInProgress` | pkg/kstatus/status/generic.go:73-99 | While the latest generation was not observed a resource of any kind is in progress. |
| `KStatusKinds.StandardDecides` | pkg/kstatus/status/generic.go:44-68 | The first true standard condition decides for any kind, with its reason and message. |
| `KStatusKinds.UnreadableFails` | pkg/kstatus/status/generic.go:22-50 | An unreadable deletion timestamp, generation or condition list is the error that is returned, in that order. |
| `KStatusKinds.DeploymentCurrent` | pkg/kstatus/status/core.go:158-250 | Failed exactly when a condition reports an exceeded deadline; otherwise current exactly when the replica counts agree, and it is available and progressing (which without a deadline it always is). |
| `KStatusKinds.StatefulSetCurrent` | pkg/kstatus/status/core.go:83-152 | Current exactly when updated on delete, or with the wanted replicas, all ready, and up to date beyond its partition or at one revision. |
| `KStatusKinds.ReplicaSetCurrent` | pkg/kstatus/status/core.go:253-302 | Current exactly when no replica failure is reported and enough replicas, and no extra ones, are labelled, available and ready. |
| `KStatusKinds.DaemonSetCurrent` | pkg/kstatus/status/core.go:305-386 | Current exactly when both generations are set and as many pods as wanted are scheduled, updated, available and ready. |
| `KStatusKinds.ServiceCurrent` | pkg/kstatus/status/core.go:591-609 | Current unless it is a load balancer without a cluster IP. |
| `KStatusKinds.PVCCurrent` | pkg/kstatus/status/core.go:391-405 | Current exactly when bound. |
| `KStatusKinds.JobSettled` | pkg/kstatus/status/core.go:552-575 | The first true condition among Complete, Failed and (when meant to be) Suspended decides, and only Failed is a failure. |
| `KStatusKinds.JobUnsettled` | pkg/kstatus/status/core.go:577-588 | Without one, current once the job has a start time and in progress before. |
| `KStatusKinds.CRDSettled` | pkg/kstatus/status/core.go:611-636 | The first condition that refuses the names, denies or affirms that the definition is established decides. |
| `KStatusKinds.CRDUnsettled` | pkg/kstatus/status/core.go:636-637 | Without one it is in progress. |
| `KStatusKinds.PodEnded` | pkg/kstatus/status/core.go:417-428 | A pod that has ended is current, however it ended. |
| `KStatusKinds.PodRunning` | pkg/kstatus/status/core.go:429-448 | A running pod is current exactly when Ready, otherwise failed exactly when a named container is in a crash loop. |
| `KStatusKinds.PodPending` | pkg/kstatus/status/core.go:449-459 | A pending pod has failed exactly when reported unschedulable 15 seconds or more after its creation, and is in progress otherwise. |
| `KStatusKinds.PodOtherwise` | pkg/kstatus/status/core.go:460-466 | Without a phase a pod is in progress; any other phase is an error. |
| `KStatusKinds.OtherReady` | pkg/kstatus/status/status.go:153-182 | A kind that does not read as one with rules of its own is decided by its first Ready condition of status True, False or Unknown. |
| `KStatusKinds.ReadsBuiltInIff` | pkg/kstatus/status/core.go:57-66 | A kind without a slash reads as one with rules of its own exactly when it is one of the sixteen. |
| `KStatusKinds.OtherCurrent` | pkg/kstatus/status/status.go:129-137 | Without one it is current. |
| `KStatusKinds.CrashLoopingExactly` | pkg/kstatus/status/core.go:469-508 | The containers listed are exactly the named ones that wait in CrashLoopBackOff. |
| `KStatus.Augment` | pkg/kstatus/status/status.go:184-241 | The loops compute the specified object or error. |
| `KStatus.WriteCondition` | pkg/kstatus/status/status.go:204-239 | The inner loop rewrites every entry of the type or appends one, or fails on a malformed entry. |
| `KStatus.DeploymentLoop` | pkg/kstatus/status/core.go:179-199 | The scan finds the first exceeded deadline, or whether the deployment progresses and is available. |
| `KStatus.CrashLoopingContainers` | pkg/kstatus/status/core.go:469-508 | Lists exactly the named containers that wait in CrashLoopBackOff. |

## Left out

- The Kubernetes clients, REST mappers (including the reset after CRDs were applied), informers, printers, commands and file reading: calls out of the engine, or no property of their own.
- The values written by apply-time mutation: only that it succeeds or fails, and the edges it asks for.
- The simple policy filters (inventory policy, lifecycle annotations, local namespaces): arbitrary verdicts.
- Events other than group and wait events, task names and counters, log and error texts, and the numbers in status messages.
- The edge list inside the cycle error: the ids it names are modelled, its text is not.
- The Validator's own checks of kind, name and namespace: the ids they name are an arbitrary starting set.
- The annotations put on objects while preparing, and the creation of the inventory namespace beyond whether it succeeds.
- Real time and eventual completion: a timeout is a step that may happen; that a cancelled run can always return is proved (RunProgress.CancelReturns), not that it does.
- RunPunctual.PunctualNeverFatal: one direction only, because a late update is harmless when it changes nothing that a later object rests on; the exact condition, on the records an object is judged by, is DependencyFilter.PrematureReconcileIff, and those records are frozen (RunWaiting.FrozenAfterWait).
- sort.Sort is stood in for by an insertion sort; any sort by the same order gives the same list (Ordering.SortedUnique).
- Equal, Unique, Hash, ToStringMap and FromStringMap of object sets: the first three are not used by the engine, the last two are the data map's loops with statuses off.
- The depends-on and mutation annotations' YAML and the custom resource definition's fields are given already decoded, except the depends-on text itself.
- Malformed container statuses that make the code panic on a type assertion, and a status field that is not a map.
