# Restore operator controller

A model of the restore controller of the MySQL operator
(`pkg/controllers/restore/operator_controller.go`). The controller watches
`Restore` objects and does four things:

- Its informer's add handler enqueues the namespace/name key of every Restore
  that is not already scheduled.
- A worker takes keys from a rate-limited work queue one at a time. It
  forgets a key whose sync succeeded and re-adds with rate limiting a key
  whose sync failed.
- The sync handler (`processRestore`) splits the key and fetches the Restore
  from the lister cache. It works on a defaulted deep copy and validates it,
  first locally and then by checking that the referenced Cluster and Backup
  exist.
  - An invalid Restore gets a Warning event and a `Failed` condition.
  - A valid one is scheduled on the first primary Pod of its Cluster,
    written back through the client, and announced with a Normal event.
- `scheduleRestore` sets the `Scheduled=True` condition and
  `Spec.ScheduledMember` on the Restore it is given.

The model has these parts:

- `RestoreTypes`: the Restore value, its conditions and the condition
  helpers. It also has the `Restore` class, the private copy the handler
  changes in place.
- `Keys`: the queue key and its split.
- `Admission`: the add handler's decision.
- `Validation`: the reference checks and the text of a validation error.
- `SyncHandler`: a function `Reconcile` that gives the complete outcome of
  one `processRestore` call. The outcome is the collaborator calls made, in
  order, and the error returned. `SyncHandlerProperties` holds the
  properties proved about it.
- `WorkQueue`: a class for the queue.
- `Worker`: the trace a worker leaves.
- `Controller`: the `OperatorController` class with imperative methods:
  - `OnAdd`;
  - `ProcessNextWorkItem`;
  - `RunWorker`;
  - `ProcessRestore`, proved to make exactly the calls `Reconcile` gives and
    to return its error;
  - `ScheduleRestore`.

The listers' contents, the write client's and the condition updater's
failures, and the `Validate`/`EnsureDefaults` rules are inputs of the model.
The event recorder, the condition updater and the client are logged as
`Effect`s.

The model follows the code in two places where a reader might expect
otherwise:

- `processRestore` never looks at the `Scheduled` condition. A Restore that
  is already scheduled and reaches the handler is scheduled again on the
  current first primary (`AlreadyScheduledIsRescheduled`). Only the add
  handler skips scheduled Restores.
- The `Failed` condition is written with status `False`.

## Model

| member | source | states |
|---|---|---|
| RestoreTypes.GetCondition | pkg/controllers/restore/operator_controller.go:131 | the condition found is the first of the requested type in the list; none is found exactly when no condition has that type |
| RestoreTypes.SetCondition | pkg/controllers/restore/operator_controller.go:325-328 | afterwards the condition of c's type is c, every other type's condition is unchanged, and the list grows by one exactly when c's type was absent |
| RestoreTypes.SetConditionKeepsOthers | pkg/controllers/restore/operator_controller.go:325-328 | every condition of another type is still present after the update |
| RestoreTypes.SetConditionIdempotent | pkg/controllers/restore/operator_controller.go:325-328 | updating with the same condition twice equals updating once |
| RestoreTypes.Restore.FromValue | pkg/controllers/restore/operator_controller.go:243-244 | the new object holds exactly the cached value (the deep copy) |
| RestoreTypes.Restore.EnsureDefaults | pkg/controllers/restore/operator_controller.go:245-246 | the object's new value is the defaulting rules applied to its old value |
| RestoreTypes.Restore.UpdateCondition | pkg/controllers/restore/operator_controller.go:325-328 | the object's conditions become the upsert of the given condition into the old ones |
| Keys.IndexOfSlash | pkg/controllers/restore/operator_controller.go:232 | the index found holds the first '/' of the key; none is found exactly when the key has no '/' |
| Keys.MetaNamespaceKey | pkg/controllers/restore/operator_controller.go:138 | the key ends with the name; with a namespace it is that namespace, one '/', then the name; without one it is the name alone |
| Keys.SplitMetaNamespaceKey | pkg/controllers/restore/operator_controller.go:232-235 | fails exactly when the key has two or more '/'; otherwise neither part contains '/', and the key is "namespace/name", or the name alone when the namespace is empty |
| Keys.SplitJoin | pkg/controllers/restore/operator_controller.go:138 | splitting the key built for an object whose namespace and name have no '/' gives back that namespace and name |
| Admission.IsScheduled | pkg/controllers/restore/operator_controller.go:131-132 | defining predicate (no contract of its own): the first Scheduled condition that GetCondition finds has status True |
| Admission.Admit | pkg/controllers/restore/operator_controller.go:128-144 | the key is enqueued exactly when the Restore is not scheduled and the key was built; the enqueued key is that key; the Restore is skipped as scheduled exactly when it is scheduled |
| Validation.CheckReferences | pkg/controllers/restore/operator_controller.go:255-273 | fails exactly when some lookup failed other than with NotFound; otherwise a field error occurs exactly when it is the NotFound of a missing reference, and there are no more errors than references |
| Validation.Missing | pkg/controllers/restore/operator_controller.go:257-272 | the references reported NotFound are exactly the missing ones, and there are no more of them than references |
| Validation.CheckReferencesInOrder | pkg/controllers/restore/operator_controller.go:255-273 | without a lookup error the check succeeds, and its errors are exactly one NotFound per missing reference, at that reference's path and name, in reference order |
| Validation.FirstFailureWins | pkg/controllers/restore/operator_controller.go:256-270 | the error returned is that of the first failed lookup, so the Cluster's comes before the Backup's |
| Validation.FieldErrorText | pkg/controllers/restore/operator_controller.go:261-262 | the text of a NotFound field error contains its field path and the name that was not found |
| Validation.ErrorText | pkg/controllers/restore/operator_controller.go:274-285 | defining function (no contract of its own): the validation error's text, which is the local message, one field error's text alone, or several in brackets. Its properties are stated by AggregateMentionsEveryPath |
| Validation.JoinMentionsEveryPath | pkg/controllers/restore/operator_controller.go:274-276 | the joined text of a list of field errors contains every error's path |
| Validation.AggregateMentionsEveryPath | pkg/controllers/restore/operator_controller.go:274-276 | the aggregate error's text contains the path of every field error in it |
| SyncHandler.Schedule | pkg/controllers/restore/operator_controller.go:314-334 | succeeds exactly when the primary listing succeeded and is non-empty; fails with "no primaries" exactly when the listing is empty. On success the member is the first primary, Scheduled=True is set, the Restore counts as scheduled, and metadata, cluster, backup and the other conditions are unchanged |
| SyncHandler.Validate | pkg/controllers/restore/operator_controller.go:248-276 | defining function (no contract of its own): local validation first, then the Cluster and Backup references. Its properties are stated by ValidationDecidesBranch, LocalValidationShortCircuits, ReferenceLookupFailureAborts and MissingReferencesAreReported |
| SyncHandler.Reconcile | pkg/controllers/restore/operator_controller.go:231-311 | defining function (no contract of its own): the full outcome of processRestore for a key, as the calls made in order and the error returned. ProcessRestore is proved to match it; its properties are stated by the SyncHandlerProperties lemmas |
| SyncHandler.Sync | pkg/controllers/restore/operator_controller.go:248-310 | defining function (no contract of its own): processRestore after the defaulted copy exists. Its properties are stated by ValidationDecidesBranch |
| SyncHandler.Reject | pkg/controllers/restore/operator_controller.go:284-294 | defining function (no contract of its own): the invalid branch. Its properties are stated by RejectedOutcome and ValidationDecidesBranch |
| SyncHandler.ScheduleAndUpdate | pkg/controllers/restore/operator_controller.go:296-300 | defining function (no contract of its own): schedule, then write. Its properties are stated by ValidationDecidesBranch and NoPrimariesLeavesNoTrace |
| SyncHandler.Persist | pkg/controllers/restore/operator_controller.go:302-310 | defining function (no contract of its own): the client write and the Normal event. Its properties are stated by ScheduledOutcome |
| SyncHandlerProperties.ReconcileOutcomeShape | pkg/controllers/restore/operator_controller.go:231-311 | at most two collaborator calls, the first being an event or the client write; none exactly when the error is a key, fetch, lookup or scheduling failure |
| SyncHandlerProperties.RejectedOutcome | pkg/controllers/restore/operator_controller.go:284-294 | when the first call is an event: a FailedValidation Warning, then Failed/False/FailedValidation with the same message on the same Restore, and the condition updater's result is returned |
| SyncHandlerProperties.ValidationDecidesBranch | pkg/controllers/restore/operator_controller.go:248-303 | for a fetched Restore, the validation result decides the branch. A lookup failure aborts with no calls. An invalid Restore gets exactly the FailedValidation warning and the Failed condition with the error's text, is never written, and the updater's result is returned. A valid Restore that cannot be scheduled aborts with the scheduler's error. A scheduled one is first written through the client |
| SyncHandlerProperties.ScheduledOutcome | pkg/controllers/restore/operator_controller.go:296-310 | when the first call is the client write, the defaulted Restore passed validation and the object written is its Schedule result: Scheduled=True and placed on the first primary. The SuccessScheduled event follows exactly when the write succeeded; the only error is the write's |
| SyncHandlerProperties.FetchFailuresLeaveNoTrace | pkg/controllers/restore/operator_controller.go:232-241 | a key that does not split, or a Restore missing from the lister, aborts with the matching error and no calls |
| SyncHandlerProperties.ReferenceLookupFailureAborts | pkg/controllers/restore/operator_controller.go:256-270 | a Cluster lookup error other than NotFound aborts with that error and no calls; so does a Backup lookup error when the Cluster lookup did not fail |
| SyncHandlerProperties.MissingReferencesAreReported | pkg/controllers/restore/operator_controller.go:252-273 | without lookup errors, the field errors are the Cluster's NotFound if it is missing, followed by the Backup's if it is missing |
| SyncHandlerProperties.LocalValidationShortCircuits | pkg/controllers/restore/operator_controller.go:248-249 | a locally invalid Restore has the same outcome whatever the Cluster and Backup listers hold: the warning and the Failed condition carry the local error's text |
| SyncHandlerProperties.BothMissingMentionsBothPaths | pkg/controllers/restore/operator_controller.go:274-293 | with both references missing, the event and the condition messages each name both field paths |
| SyncHandlerProperties.NoPrimariesLeavesNoTrace | pkg/controllers/restore/operator_controller.go:297-300 | a valid Restore with no primary aborts with "no primaries", with no condition, write or event |
| SyncHandlerProperties.ScheduledRestoreIsNotReadmitted | pkg/controllers/restore/operator_controller.go:131-136 | a Restore the scheduler placed is skipped by the add handler |
| SyncHandlerProperties.AdmittedKeyResolvesToRestore | pkg/controllers/restore/operator_controller.go:138-143 | the key enqueued for an unscheduled Restore splits back to that Restore's namespace and name |
| SyncHandlerProperties.AlreadyScheduledIsRescheduled | pkg/controllers/restore/operator_controller.go:296-303 | an already scheduled Restore reaching the handler is written with the current first primary, replacing its old member |
| SyncHandlerProperties.ScenarioKeys | pkg/controllers/restore/operator_controller.go:232 | "ns/r1" and "ns/r2" split into namespace ns and names r1 and r2 |
| SyncHandlerProperties.MissingBackupValidation | pkg/controllers/restore/operator_controller.go:248-276 | an existing Cluster and a missing Backup give one NotFound error at spec.backup.name |
| SyncHandlerProperties.ScenarioMissingBackup | pkg/controllers/restore/operator_controller.go:284-294 | that Restore gets exactly a warning and the Failed condition, whose text names the path and the missing Backup, with no write and no error |
| SyncHandlerProperties.ScenarioScheduled | pkg/controllers/restore/operator_controller.go:296-310 | a valid Restore with one primary pod-0 is written once with member pod-0 and Scheduled=True, then one Normal event follows, with no error |
| WorkQueue.RateLimitingQueue.constructor | pkg/controllers/restore/operator_controller.go:119 | a new queue is empty, not shut down and valid |
| WorkQueue.RateLimitingQueue.Add | pkg/controllers/restore/operator_controller.go:143 | the key is appended unless the queue is shut down or already holds it; keys stay unique |
| WorkQueue.RateLimitingQueue.Get | pkg/controllers/restore/operator_controller.go:206-209 | quits exactly when nothing is pending; otherwise returns and removes the first pending key |
| WorkQueue.RateLimitingQueue.Done | pkg/controllers/restore/operator_controller.go:212 | logs Done for the key |
| WorkQueue.RateLimitingQueue.Forget | pkg/controllers/restore/operator_controller.go:219 | logs Forget for the key |
| WorkQueue.RateLimitingQueue.AddRateLimited | pkg/controllers/restore/operator_controller.go:226 | logs the rate-limited re-add of the key |
| WorkQueue.RateLimitingQueue.ShutDown | pkg/controllers/restore/operator_controller.go:160 | the queue is shut down |
| Worker.StepCalls | pkg/controllers/restore/operator_controller.go:205-229 | defining function (no contract of its own): the queue calls of one processNextWorkItem. Its properties are stated by DrainCallsAt |
| Worker.Extend | pkg/controllers/restore/operator_controller.go:205-229 | defining function (no contract of its own): the trace after one more key. ProcessNextWorkItem is proved to match it |
| Worker.Drain | pkg/controllers/restore/operator_controller.go:198-203 | defining function (no contract of its own): the trace after a worker takes keys in order. RunWorker is proved to match it; DrainCallsAt and DrainEffectsBounded state its properties |
| Worker.DrainStep | pkg/controllers/restore/operator_controller.go:198-203 | draining one more key extends the trace by that key's step |
| Worker.DrainCallsAt | pkg/controllers/restore/operator_controller.go:205-229 | n keys drained make 3n queue calls. The calls for key i are Get, then Forget if its sync succeeded or AddRateLimited if it failed, then Done, in queue order |
| Worker.DrainEffectsBounded | pkg/controllers/restore/operator_controller.go:198-229 | draining n keys through processRestore makes at most 2n collaborator calls |
| Controller.OperatorController.constructor | pkg/controllers/restore/operator_controller.go:124 | the sync handler is processRestore over the given listers; the queue is new and empty; no calls have been made |
| Controller.OperatorController.OnAdd | pkg/controllers/restore/operator_controller.go:128-144 | the queue receives Add of the Restore's own namespace/name key exactly when the admission decision is to enqueue; otherwise it is untouched |
| Controller.OperatorController.Eventf | pkg/controllers/restore/operator_controller.go:285 | one event with the Restore's current value is appended to the log |
| Controller.OperatorController.UpdateCondition | pkg/controllers/restore/operator_controller.go:288-293 | one condition request is logged, and the updater's result is returned |
| Controller.OperatorController.Update | pkg/controllers/restore/operator_controller.go:303-306 | one write is logged. It fails exactly when the client rejects the target; otherwise it returns a new object equal to what was written |
| Controller.OperatorController.ScheduleRestore | pkg/controllers/restore/operator_controller.go:314-334 | the given object becomes the Schedule result and is returned. On a listing error it is returned unchanged; with no primaries, null is returned |
| Controller.OperatorController.ProcessRestore | pkg/controllers/restore/operator_controller.go:231-311 | the calls appended are exactly the outcome's calls, and the error returned is the outcome's, for this key under Reconcile |
| Controller.OperatorController.ProcessNextWorkItem | pkg/controllers/restore/operator_controller.go:205-229 | returns false, changing nothing, exactly when a shut-down queue is empty. Otherwise the head key leaves the queue, and the trace gains Get, the handler's calls, Forget or AddRateLimited by its error, then Done |
| Controller.OperatorController.RunWorker | pkg/controllers/restore/operator_controller.go:198-203 | on a shut-down queue, the worker empties the queue, and the trace is the drain of the pending keys in order |

## Left out

- `Run` and `NewOperatorController`: caches are not synced, goroutines are not started, and the stop channel is not modelled. These are wiring and concurrency. The constructor only connects the handler to `processRestore` over fixed listers.
- Several workers running at once are not modelled. Nor is an informer that changes while a sync runs: the listers are constant maps, and every cached Restore is a value. So aliasing between the cache and the handler is not modelled; the handler's working copy is a fresh object.
- RateLimitingQueue.Get: the blocking wait is a precondition (the queue is shut down or not empty). The rule that a key re-added while it is being processed waits until Done is not modelled.
- RateLimitingQueue.AddRateLimited: only logs the call. The back-off delay, the delayed re-add and the failure counts that Forget resets are internal to the work queue.
- Controller.OperatorController.RunWorker: modelled on a queue that is already shut down. On a live queue the loop only ends at shutdown, so no terminating model states it.
- `Restore.Validate` and `Restore.EnsureDefaults`: their rules live outside this file, so they are the `Hooks` parameters.
- `MetaNamespaceKeyFunc`: its outcome is a parameter of `OnAdd`, including the error path.
- Lister and client errors are inputs: the `Unreadable`, `ListFailed`, `updateErrors` and `conditionErrors` maps. A missing pod listing counts as an empty list.
- The primary label selector is reduced to a listing keyed by namespace and Cluster name. Labels are carried but not interpreted.
- The conditionUpdater's retry policy is a single result per Restore. The condition transition time is not modelled.
- `ToAggregate` and `errors.Wrap`: an error message is a datatype, not a string. Only the field error text and the joining of several errors are written out.
- Logging (`glog`) is not modelled.
