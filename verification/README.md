# AgentForge, verified

A Dafny model of the stateful core of AgentForge, a multi-tenant runtime for agent tasks. The
imperative parts are classes and loops proved against specification functions; the theorems are
about those functions, over every input, every run or every interleaving. The main operations also
say directly, from what they find, what they leave.

- **Tenant admission** (`TenantPolicy`, `TenantRuns`, `TenantRules`, `TenantManager`): budget
  reservations, the sliding-window rate limiter and the three-state circuit breaker of
  `pkg/tenant/manager.go`. `TenantRules` says from the history of a record alone who is refused and why,
  when the breaker moves and what every counter holds.
- **Fair queue** (`QueueCore`, `MemoryQueueObject`, `Dispatch*`, `QueueRuns`, `Fairness`): the
  round-robin ring over per-tenant FIFOs of `pkg/queue/memory_queue.go`, its three deduplication
  structures, retries and dead letters. `Dispatch` puts the queue, the manager and any number of
  callers, ingress loops, workers and retry timers into one transition system. A step is one critical
  section of one goroutine: claiming a key, each call of the manager, giving a key back, sending,
  receiving from the channel, filing a received message, finishing. Only a pop is coarser: it asks the
  manager about all tenants at one moment, while the program takes the manager's lock once per tenant.
  `DispatchLimits` holds the legal runs that show where the theorems end: a cancelled admission taken
  back late, two ingress loops, tenants that keep coming back.
- **Task and run lifecycle** (`Store`, `MemoryStoreObject`, `Lifecycle*`, `Worker`, `Service`,
  `Recovery`): the store, the service, any number of workers under any duplicate delivery, and the
  recovery job, as one transition system whose steps are single store calls. Lineage, claims, keys and
  the consistency checker are about all of its runs. Mutual exclusion is about orderly runs: no
  recovery step, and no delivery of a run whose enqueue by Resume failed and which is not yet marked as
  failed. The program does not enforce the second condition (a repeated Create with the task's
  idempotency key enqueues such a run), nor that recovery only touches abandoned runs;
  `LifecycleExclusion` shows for both the exact condition and the run that breaks exclusion otherwise.
- **Execution loop** (`Engine`, `EngineLog`, `EngineEvents`, `Artifacts`, `Checkpoints`): `Execute` with an arbitrary
  model, arbitrary tools, aborts, cancellation and failing saves, compared turn by turn with a reference
  conversation, with every call it makes in order. `Checkpoints` lets the calls of many runs reach the
  stores in any interleaving and resumes from what they leave.
- **Consistency checker** (`Consistency`, `Decimal`, `Listing`), **event log** (`EventLog`),
  **stream chunker** (`Chunker`), **workspace** (`WorkspaceTree`, `Workspace`, `WorkspaceManager`,
  `WorkspaceRuns`).

Composite string keys are pairs or datatype values, except the queue's message key, which is the
concatenated string. Clocks, random ids, the language model, tools, disk faults and the flush
function are arguments. Amounts of money are `real`, integers are unbounded. A step reads the clock
once.

## Model

| member | source | states |
|---|---|---|
| TenantManager.PruneOld | pkg/tenant/manager.go:569-580 | The pruning loop returns the longest suffix of the window that starts at or after the cutoff |
| TenantManager.AdmitRecord | pkg/tenant/manager.go:211-253 | The step-by-step admission of one record gives the specified record and verdict |
| TenantManager.StartRecord | pkg/tenant/manager.go:263-295 | Starting a run changes one record as specified, refusals included |
| TenantManager.CompleteRecord | pkg/tenant/manager.go:298-349 | Settling reservation and usage and then judging the breaker gives the specified record; the breaker opens, closes or stays by the error limit, the breaker it found and the outcome |
| TenantManager.JudgeRecord | pkg/tenant/manager.go:322-346 | A closed breaker opens exactly when a failure brings the errors in a row to a positive limit, a half-open one opens or closes by the outcome, an open one stays; the errors are counted on or reset |
| TenantManager.Manager.constructor | pkg/tenant/manager.go:167-175 | A new manager has a normalized default policy and no records |
| TenantManager.Manager.SetPolicy | pkg/tenant/manager.go:177-185 | An empty tenant is ignored, any other gets the normalized policy |
| TenantManager.Manager.StateLocked | pkg/tenant/manager.go:438-448 | A record is created on first use and otherwise left as it is |
| TenantManager.Manager.TryEnqueue | pkg/tenant/manager.go:194-261 | Only this tenant's record changes; each refusal has exactly one named reason, an admission is counted and reserved, an exceeded budget opens the breaker |
| TenantManager.Manager.TryStartRun | pkg/tenant/manager.go:263-296 | Only this tenant's record changes; each refusal has exactly one named reason, and a start moves one message from queued to running and is the probe of a half-open breaker |
| TenantManager.Manager.CompleteRun | pkg/tenant/manager.go:298-350 | Only this tenant's record changes; the breaker moves as in JudgeRecord, one run fewer is running, an accepted completion is spent, its reservation is gone |
| TenantManager.Manager.CancelEnqueue | pkg/tenant/manager.go:353-369 | Only this tenant's record changes, as specified |
| TenantManager.Manager.MarkDeadLetter | pkg/tenant/manager.go:371-385 | Only this tenant's record changes, as specified |
| TenantPolicy.AdmitSound | pkg/tenant/manager.go:194-261 | Admission keeps counters non-negative, reserved totals equal to the sums of the reservations, and a probe only in a half-open breaker with a running run |
| TenantPolicy.StartSound | pkg/tenant/manager.go:263-296 | Starting a run keeps the same facts |
| TenantPolicy.CompleteSound | pkg/tenant/manager.go:298-350 | Completing a run keeps the same facts |
| TenantPolicy.CancelSound | pkg/tenant/manager.go:353-369 | Cancelling keeps the same facts |
| TenantPolicy.MarkDeadSound | pkg/tenant/manager.go:371-385 | Dead-lettering keeps the same facts |
| TenantPolicy.CancelUndoesAdmit | pkg/tenant/manager.go:353-369 | Cancelling an admission restores depth, reservations, reserved totals and usage |
| TenantRuns.RunIsSound | pkg/tenant/manager.go:194-384 | The record facts hold after every sequence of operations |
| TenantRuns.RateLimitHolds | pkg/tenant/manager.go:211-216 | Every closed 60-second interval of any run contains at most RateLimitPerMinute accepted enqueues |
| TenantRuns.WindowIsExact | pkg/tenant/manager.go:232-234 | After an accepted enqueue the window is exactly the accepted times not older than a minute |
| TenantRuns.HalfOpenProbesOnce | pkg/tenant/manager.go:272-287 | A half-open episode starts at most one run, and the probe flag says whether it has |
| TenantRuns.CompletionEndsEpisode | pkg/tenant/manager.go:322-346 | Any completion ends a half-open episode, a success closing and a failure opening the breaker |
| TenantRuns.CooldownHolds | pkg/tenant/manager.go:481-503 | Nothing is admitted or started, and the breaker stays open, for as long as operations fall within the cooldown |
| TenantRules.CompletionMovesBreaker | pkg/tenant/manager.go:322-346 | In every run a completion opens a closed breaker exactly when it failed and the failures since the last success reach a positive limit; a half-open one it opens or closes by its outcome, an open one it leaves |
| TenantRules.OthersMoveBreaker | pkg/tenant/manager.go:481-503 | The first enqueue or start after the cooldown half-opens the breaker, an enqueue over budget opens it, and nothing else moves it |
| TenantRules.RunCounts | pkg/tenant/manager.go:194-384 | After every run the errors in a row are the failures since the last success, each counter is the number of the operations it names, and the usage is the sum of the accepted completions |
| TenantRules.EnqueueRefusedOnlyFor | pkg/tenant/manager.go:194-261 | In every run an enqueue is refused exactly for an open breaker, a full queue, the accepted enqueues of the last minute or a budget, in this order |
| TenantRules.StartRefusedOnlyFor | pkg/tenant/manager.go:263-296 | In every run a start is refused exactly for an open breaker, a running probe or the running limit |
| TenantRules.WithinLimits | pkg/tenant/manager.go:194-296 | In every run the numbers of running and queued messages stay within their positive limits |
| QueueCore.KeysSeparateTenants | pkg/queue/memory_queue.go:474-483 | Equal message keys mean equal tenants when tenant ids are free of the separator |
| QueueCore.KeysCollideAcrossTenants | pkg/queue/memory_queue.go:474-483 | With the separator in a tenant id two tenants can share a key |
| QueueCore.KeysIdentify | pkg/queue/memory_queue.go:474-483 | Without separators in tenant and task ids, two keys are equal exactly for the same tenant and the same dedupe key, or the same task and run |
| QueueCore.EnqueuedIs | pkg/queue/memory_queue.go:117-172 | Exactly a queued, in-flight or recently completed key is dropped; otherwise the manager decides; an admitted message joins the channel and holds its key, or gives back both key and admission; nothing else changes |
| QueueCore.AddPendingKeepsRing | pkg/queue/memory_queue.go:301-307 | The ring stays duplicate-free and equal to the set of tenants with a non-empty FIFO, cursor in range |
| QueueCore.TakeKeepsRing | pkg/queue/memory_queue.go:366-395 | So it does when a tenant's head is taken, removal and cursor wrap included |
| QueueCore.DrainAllKeepsRing | pkg/queue/memory_queue.go:262-288 | So it does when everything buffered is drained, which empties the channel |
| QueueCore.TakeTurns | pkg/queue/memory_queue.go:366-395 | Dispatching a tenant moves it and everyone asked before it behind the others, dropping it if its FIFO is empty |
| QueueCore.ScanFindsFirst | pkg/queue/memory_queue.go:341-381 | The scan stops at the first tenant in ring order that the manager admits, and finds nothing only if it refuses all |
| QueueCore.PopFindsFirst | pkg/queue/memory_queue.go:341-381 | A pop returns the head of the first admitted tenant's FIFO, in ring order from the cursor: that message leaves it, its key moves into flight, the ring moves on; without one the queue is unchanged and every pending tenant was refused |
| MemoryQueueObject.MemoryQueue.constructor | pkg/queue/memory_queue.go:86-115 | A new queue is empty with a normalized configuration |
| MemoryQueueObject.MemoryQueue.Enqueue | pkg/queue/memory_queue.go:117-172 | Nil changes nothing; a message, with default tenant and attempt filled in, is dropped, refused, queued or cancelled exactly as in EnqueuedIs |
| MemoryQueueObject.MemoryQueue.ClaimLocked | pkg/queue/memory_queue.go:130-145 | The critical section finds duplicates and claims a new key |
| MemoryQueueObject.MemoryQueue.EnqueueCopy | pkg/queue/memory_queue.go:127-172 | The calls behind the nil check give the specified queue, manager and result |
| MemoryQueueObject.MemoryQueue.AddPendingLocked | pkg/queue/memory_queue.go:301-307 | The message joins its tenant's FIFO, a new tenant the end of the ring |
| MemoryQueueObject.MemoryQueue.IngressDrain | pkg/queue/memory_queue.go:262-288 | The loop moves everything buffered into the FIFOs in order |
| MemoryQueueObject.MemoryQueue.RemoveTenantLocked | pkg/queue/memory_queue.go:383-395 | The tenant leaves the ring and the cursor wraps; other indexes are ignored |
| MemoryQueueObject.MemoryQueue.PopEligibleLocked | pkg/queue/memory_queue.go:341-381 | The loop ends, gives the first admitted tenant's oldest message as in PopFindsFirst, and its empty-FIFO branch is dead |
| MemoryQueueObject.MemoryQueue.Dispatch | pkg/queue/memory_queue.go:366-377 | The head is removed and its key moves from queued to in flight |
| MemoryQueueObject.MemoryQueue.FinishAttempt | pkg/queue/memory_queue.go:397-454 | The key leaves flight; a success or a failure of attempt MaxAttempts or later is remembered as completed, and that failure becomes a dead letter in queue and manager; any other failure comes back with the next attempt number; nothing else changes |
| MemoryQueueObject.MemoryQueue.PruneRecentLocked | pkg/queue/memory_queue.go:456-465 | The loop keeps exactly the entries within the window |
| DispatchPlaces.StepKeepsPlaces | pkg/queue/memory_queue.go:117-465 | Every step keeps channel, ingress loops, FIFOs, key sets and ring in agreement with where each submission is |
| DispatchAccounts.StepKeepsBooks | pkg/tenant/manager.go:194-384 | Every step keeps the manager's counters in agreement with the queue; every step that does not cancel an admission whose key a queued or running message holds keeps its reservations and the budget too |
| DispatchHistory.StepKeepsDedup | pkg/queue/memory_queue.go:130-145 | Every step keeps the pruned completions consistent with the full history |
| DispatchHistory.StepKeepsOrder | pkg/queue/memory_queue.go:262-307 | Every step that files a tenant's messages in the order of receipt keeps, per tenant, sent equal to dispatched, pending, received and buffered, in that order |
| DispatchHistory.FileOrderIff | pkg/queue/memory_queue.go:262-307 | Filing a received message keeps that order if and only if no older message of the tenant is still in another ingress loop's hands |
| DispatchHistory.StepKeepsAttempts | pkg/queue/memory_queue.go:397-454 | Every step keeps attempt numbers in step with the number of times handled |
| DispatchHistory.StepKeepsLedger | pkg/queue/memory_queue.go:397-454 | Every step keeps every submission live or settled, and the dead letters equal to the dead-lettered ones |
| DispatchRuns.CountersAgree | pkg/tenant/manager.go:194-384 | In every state any run reaches: queued and running are the numbers of messages in the queue (half-cancelled ones counted as queued), enqueued = queued + dequeued + cancelled, dequeued = running + completed + failed, reserved totals are the sums of the reservations, and every reservation belongs to such a message |
| DispatchRuns.BooksAgree | pkg/tenant/manager.go:194-384 | As long as no admission is cancelled whose key a queued or running message holds: every queued or running message has its clamped estimate reserved, a positive budget is never exceeded, and without half-cancelled messages the reservations are exactly those estimates with their sums |
| DispatchRuns.CancelKeepsBooksIff | pkg/queue/memory_queue.go:163-169 | The next cancelled admission keeps those books if and only if no queued or running message of the tenant holds its key |
| DispatchLimits.LateCancelUncovers | pkg/queue/memory_queue.go:117-172 | In every reachable state, a message about to be sent that the manager would admit again can end up queued without a reservation: key given back, submitted and admitted again, first admission cancelled |
| DispatchLimits.LateCancelHappens | pkg/queue/memory_queue.go:163-169 | Such a state is reachable under the default limits |
| DispatchRuns.AtMostOneCopy | pkg/queue/memory_queue.go:130-150 | A key has at most one live copy, and queued and in-flight keys are disjoint |
| DispatchRuns.NotHandledAgainWithinWindow | pkg/queue/memory_queue.go:374-424 | A dispatched message's key last completed more than DedupeWindow ago |
| DispatchRuns.DuplicateByHistory | pkg/queue/memory_queue.go:456-465 | The pruned map decides duplicates exactly as the unpruned history would |
| DispatchRuns.DispatchIsFifo | pkg/queue/memory_queue.go:262-307 | In every run that files in the order of receipt, each tenant's messages are dispatched in the order they entered the channel |
| DispatchRuns.OneLoopIsFifo | pkg/queue/memory_queue.go:174-199 | So they are in every run with one ingress loop, which is what StartConsumer starts |
| DispatchLimits.TwoLoopsReorder | pkg/queue/memory_queue.go:262-288 | With two ingress loops a tenant's messages can be dispatched in another order |
| DispatchRuns.HandledAtMost | pkg/queue/memory_queue.go:397-454 | A message that came in as attempt 1 is handled at most MaxAttempts times |
| DispatchRuns.DeadOnlyAfterLastAttempt | pkg/queue/memory_queue.go:397-454 | In every reachable state a dead letter is a submission whose attempt reached MaxAttempts and which was handled once per attempt since it came in |
| DispatchRuns.FailureIsRetried | pkg/queue/memory_queue.go:397-454 | Finishing a failed attempt short of MaxAttempts schedules the same message with the next attempt number and adds no dead letter and no completion; a later one is a dead letter |
| DispatchRuns.ExactlyOnePlace | pkg/queue/memory_queue.go:262-454 | Every submission is in exactly one of: in hand, channel, ingress loop, FIFO, awaiting retry, dead letters, over |
| QueueRuns.EnqueueIsRun | pkg/queue/memory_queue.go:117-172 | An undisturbed Enqueue leaves queue and manager as a run of the system's steps does, whatever its outcome |
| QueueRuns.IngressIsRun | pkg/queue/memory_queue.go:262-288 | So does a wake-up of the ingress loop: receive and file, message by message |
| QueueRuns.PopIsRun | pkg/queue/memory_queue.go:341-381 | So does a pop |
| QueueRuns.FinishIsRun | pkg/queue/memory_queue.go:397-454 | So does finishAttempt, stated as in FinishAttempt, and the submission's fate is the retry it returns |
| Fairness.BoundedBypass | pkg/queue/memory_queue.go:341-395 | While tenants join the ring only when a waiting, always admissible tenant stands at or behind the cursor, those dispatched before it are distinct and stood before it |
| Fairness.ServedWithinOneTurn | pkg/queue/memory_queue.go:341-395 | So it is dispatched within one dispatch per ring tenant and before anyone is dispatched twice |
| Fairness.NewcomerTurn | pkg/queue/memory_queue.go:301-307 | A tenant that joins the ring lands before the tenants that precede the cursor |
| Fairness.NewcomerOvertakesIff | pkg/queue/memory_queue.go:301-307 | A tenant that joins the ring overtakes a waiting tenant if and only if that one stands before the cursor |
| DispatchLimits.ReturningTenantsOvertake | pkg/queue/memory_queue.go:301-395 | Otherwise the bypass is unbounded: from one reachable state and under the default limits, for every n a run dispatches two returning tenants n times each while a third has a pending message and is admissible at every pop |
| MemoryStoreObject.Allowed | pkg/state/memory_store.go:212-221 | The loop decides membership in the allowed statuses |
| MemoryStoreObject.MemoryStore.constructor | pkg/state/memory_store.go:32-42 | A new store is empty |
| MemoryStoreObject.MemoryStore.ApplyCreateTransition | pkg/state/memory_store.go:131-161 | Task, run and idempotency entry appear together or not at all |
| MemoryStoreObject.MemoryStore.ApplyResumeTransition | pkg/state/memory_store.go:297-337 | The run appears and the task turns to it together or not at all |
| MemoryStoreObject.MemoryStore.UpdateTaskStatus | pkg/state/memory_store.go:204-225 | The status changes only from an allowed one |
| MemoryStoreObject.MemoryStore.UpdateTaskStatusForRun | pkg/state/memory_store.go:227-251 | The status changes only for the active run and from an allowed status |
| MemoryStoreObject.MemoryStore.SetAbortRequested | pkg/state/memory_store.go:253-267 | Only the abort flag of an existing task changes |
| MemoryStoreObject.MemoryStore.ClaimRun | pkg/state/memory_store.go:414-429 | Only a queued run can be claimed, and then it runs |
| MemoryStoreObject.MemoryStore.CompleteRun | pkg/state/memory_store.go:431-443 | The status of an existing run is replaced whatever it was |
| MemoryStoreObject.MemoryStore.ResetRunToQueued | pkg/state/memory_store.go:479-493 | An existing run becomes queued whatever it was |
| MemoryStoreObject.MemoryStore.UpdateLastStepIndex | pkg/state/memory_store.go:445-455 | Only the last step of an existing run changes |
| MemoryStoreObject.MemoryStore.PutStep | pkg/state/memory_store.go:538-548 | The first write of a step wins |
| MemoryStoreObject.MemoryStore.ListSteps | pkg/state/memory_store.go:561-578 | The run's step indexes from a bound on, ascending, cut at the limit |
| MemoryStoreObject.MemoryStore.ListTasks | pkg/state/memory_store.go:355-386 | Distinct matching tasks, all of them unless there are more than the limit |
| MemoryStoreObject.MemoryStore.ListRuns | pkg/state/memory_store.go:495-534 | Distinct matching runs, all of them unless there are more than the limit |
| LifecycleProtocol.StepKeepsProtocol | pkg/engine/worker.go:62-242 | Every orderly step keeps the protocol invariant |
| LifecycleProtocol.MutualExclusion | pkg/engine/worker.go:62-242 | After every orderly run at most one worker per task is inside Execute, and it executes the task's active run |
| LifecycleProtocol.DisagreementIsInTransit | pkg/engine/worker.go:216-242 | After every orderly run task status and mapped run status differ only while somebody is between the two writes |
| LifecycleProtocol.AbortsOnlySuperseded | pkg/engine/worker.go:94-103 | In orderly runs a worker aborts a claimed run only if another run of the task has become active |
| LifecycleExclusion.DeliveryKeepsProtocolIff | pkg/task/service.go:509-520 | A delivery keeps the protocol invariant if and only if the run is not one whose enqueue by Resume failed and which is not yet marked as failed |
| LifecycleExclusion.DeliveryBreaksExclusion | pkg/task/service.go:522-554 | If such a run is active, its delivery is followed by some run with two workers inside Execute for one task |
| LifecycleProtocol.RecoveryKeepsProtocolIff | internal/ops/recovery.go:78-86 | An uninterrupted reset and requeue keeps the protocol if and only if no worker holds the run and no failed resume is half marked |
| LifecycleExclusion.RecoverySafeIff | internal/ops/recovery.go:78-86 | After recovering an active run mutual exclusion holds in every orderly continuation if and only if no worker was busy with the run and no failed resume of it was half marked |
| LifecycleProtocol.RecoveryBreaksExclusion | internal/ops/recovery.go:78-86 | Recovering a run whose worker still executes lets a second worker execute it |
| LifecycleLineage.StepKeepsLineage | pkg/state/memory_store.go:131-161 | Every step, recovery included, keeps the lineage invariant |
| LifecycleLineage.ActiveRunExists | pkg/state/memory_store.go:297-337 | Every active run id names a stored run of that task |
| LifecycleLineage.DescendsFromFirstRun | pkg/task/service.go:265-309 | Parent links lead, through checkpointed steps of runs of the same task, to the task's first run |
| LifecycleLineage.ClaimedOncePerReset | pkg/state/memory_store.go:414-429 | Successful claims of a run never exceed one plus its resets |
| LifecycleLineage.RecordsArePermanent | pkg/state/memory_store.go:538-548 | Over any run, steps stay as first written and runs keep their parents |
| Worker.HandledOutcome | pkg/engine/worker.go:62-242 | From the store, the tenant, the workspace and Execute's result: a run that is not queued is left alone, one its task does not wait for is aborted, the wrong tenant or an error of Execute fails run and task, a missing workspace leaves both running, otherwise both end with Execute's status; nothing else changes |
| Worker.HandledIsRun | pkg/engine/worker.go:62-242 | Handling a message is a run of the transition system that leaves the worker idle |
| Worker.Take | pkg/engine/worker.go:78-103 | Claiming run and task gives the specified store and early exits |
| Worker.FinalizeRun | pkg/engine/worker.go:216-242 | Run and, if still active, task get the terminal status; a lost task update is no error |
| Worker.HandleMessage | pkg/engine/worker.go:62-214 | The sequence of store calls leaves what HandledOutcome says, and the message is unacknowledged exactly when a run was taken and had no workspace |
| Service.Create | pkg/task/service.go:114-174 | A known key changes nothing and is answered with its task and active run, exactly when that run is stored and is not a queued one that cannot be enqueued; otherwise task and run are created |
| Service.OneTaskPerKey | pkg/task/service.go:114-174 | However everything interleaves, a tenant's idempotency key names one task |
| Service.Resume | pkg/task/service.go:239-330 | The checks, the transition and the failure marks give the specified store |
| Service.ResumedOutcome | pkg/task/service.go:239-330 | Resume succeeds exactly for a checkpointed step of a run of a task that is not running; a failed enqueue leaves run and task FAILED; otherwise nothing changes |
| Service.ResumedIsRun | pkg/task/service.go:509-520 | An uninterrupted Resume is a run of the transition system |
| Recovery.RecoverStaleRuns | internal/ops/recovery.go:36-109 | Exactly the listed, stale, active runs end QUEUED with a QUEUED task, every other run, task and step is as it was, and the counts are the numbers of listed runs recovered, skipped and failed |
| Recovery.RecoverExactly | internal/ops/recovery.go:56-86 | So for every list of runs, repeated ones included |
| Recovery.RecoverAllIsRun | internal/ops/recovery.go:56-86 | A recovery pass is a run of the transition system |
| Decimal.AtoiItoa | internal/ops/consistency.go:193-197 | Parsing a printed integer gives it back |
| Decimal.SplitOnce | internal/ops/consistency.go:189-192 | A separator with a character found nowhere else splits the text in two |
| Consistency.DetailRoundTrip | internal/ops/consistency.go:188-198 | Parsing the printed drift detail gives the printed maximum step |
| Consistency.Mismatch | internal/ops/consistency.go:200-224 | The text is empty exactly when the task has the run's mapped status |
| Consistency.MaxStepIsMax | internal/ops/consistency.go:110-119 | Up to 100000 steps, the scan finds the largest step index of the run |
| Consistency.CheckTasks | internal/ops/consistency.go:78-104 | The task loop reports the specified issues in order |
| Consistency.CheckRuns | internal/ops/consistency.go:106-129 | The run loop reports the specified issues in order |
| Consistency.Check | internal/ops/consistency.go:54-132 | The listing holds the tasks and runs within the limits, and an issue is reported exactly if it describes a listed task without its run, a listed task that disagrees with its run, or a drifting listed run |
| Consistency.ReportIs | internal/ops/consistency.go:78-129 | The same for any listed tasks and runs, with the tenant, ids and text of each issue |
| Consistency.SilentIffClean | internal/ops/consistency.go:78-129 | The report is empty if and only if listed tasks agree with listed active runs and no listed run drifts |
| Consistency.Repair | internal/ops/consistency.go:135-160 | Issues are applied one by one, and the counts are the numbers that succeed and fail |
| Consistency.RepairOne | internal/ops/consistency.go:162-186 | A repair sets a mismatched task to what its active run calls for, a drifting run's last step to the printed index and a task without its run to FAILED; it fails exactly when that task or run is not there, and then changes nothing |
| Consistency.RepairedIs | internal/ops/consistency.go:135-186 | Repairing a report changes only drifting last steps, mismatched statuses and tasks without their run |
| Consistency.AllApplied | internal/ops/consistency.go:135-186 | Every repair of a report that was just made succeeds |
| Consistency.OnlyMissingRunsRemain | internal/ops/consistency.go:54-186 | Check, Repair, Check over no more than was first listed leaves only missing_active_run issues |
| Consistency.NothingRemains | internal/ops/consistency.go:54-186 | In states reached by service, worker and recovery steps, whatever untruncated listings the two checks get, none is left after one repair |
| Consistency.CheckRepairCheck | internal/ops/consistency.go:54-186 | Check, Repair, Check on the store object: every repair succeeds, and in such a state within the limits the second report is empty |
| EventLog.AlwaysIncreasing | pkg/state/memory_store.go:627-668 | After any sequence of puts and compactions sequence numbers strictly increase |
| EventLog.PutChanges | pkg/state/memory_store.go:627-668 | A put adds at most its own event, replaces none, and drops only events past retention |
| EventLog.LogIsFirstWrites | pkg/state/memory_store.go:641-646 | Without retention and compaction the log is exactly the first write of every sequence number |
| EventLog.InsertIsSort | pkg/state/memory_store.go:647-653 | Any sorting of the extended list gives this list |
| EventLog.MatchingIs | pkg/state/memory_store.go:697-714 | A replay is about exactly the events past both bounds, in order |
| EventLog.Pages | pkg/state/memory_store.go:670-715 | If the first page is empty or ends with a positive sequence number, paging by the last one seen ends and yields every matching event once in order |
| EventLog.PageRepeatsIff | pkg/state/memory_store.go:701-703 | The next page is the first one again if and only if its last sequence number is not positive |
| EventLog.PagingRepeats | pkg/state/memory_store.go:701-703 | A log whose only event is numbered 0 gives the same page again for ever |
| EventLog.CompactKeepsReplay | pkg/state/memory_store.go:717-742 | Compaction does not change replays that start at or after its cutoff |
| EventLog.FilterInPlace | pkg/state/memory_store.go:658-664 | The loop moves exactly the recent events, in order, to the front of the same buffer |
| EventLog.RunEvents.constructor | pkg/state/memory_store.go:32-42 | A new log is empty |
| EventLog.RunEvents.PutEvent | pkg/state/memory_store.go:627-668 | Deduplication, insertion and retention give the specified log; missing ids are refused |
| EventLog.RunEvents.ReplayEvents | pkg/state/memory_store.go:670-715 | The loop returns the first page of the matching events |
| EventLog.RunEvents.CompactEvents | pkg/state/memory_store.go:717-742 | Exactly the older events go, and their number is returned |
| Chunker.NothingLostOrSplit | pkg/stream/chunker.go:63-136 | Under any interleaving chunks in drain order and then the buffer are all accepted writes, and every chunk is a whole number of events |
| Chunker.BufferBounded | pkg/stream/chunker.go:63-136 | Whenever the lock is free the buffer is below FlushBytes, a timer is armed exactly when it is non-empty, and after Stop it stays empty |
| Chunker.FlushedOnce | pkg/stream/chunker.go:104-136 | Every chunk is handed to the flush function exactly once |
| Chunker.ErrorsRecorded | pkg/stream/chunker.go:121-136 | Error count, last error and the history of at most 8 are those of the returned flush calls |
| Chunker.ChunkerObject.constructor | pkg/stream/chunker.go:54-60 | A new chunker is empty |
| Chunker.ChunkerObject.Write | pkg/stream/chunker.go:63-91 | The locked region of Write acts as specified |
| Chunker.ChunkerObject.DrainLocked | pkg/stream/chunker.go:109-120 | The region before the lock is released acts as specified |
| Chunker.ChunkerObject.Stop | pkg/stream/chunker.go:161-170 | The locked region of Stop acts as specified |
| Chunker.ChunkerObject.FlushReturned | pkg/stream/chunker.go:121-136 | The region after the flush call acts as specified |
| WorkspaceManager.WriteKeeps | pkg/workspace/local.go:106-143 | A write keeps the counters exact, and within quota if they were |
| WorkspaceManager.DeleteKeeps | pkg/workspace/local.go:206-235 | A delete keeps the counters exact, and within quota if they were |
| WorkspaceManager.RestoreKeeps | pkg/workspace/local.go:347-408 | A restore keeps them too, unless roll-back or recount fails |
| WorkspaceManager.WriteOutcome | pkg/workspace/local.go:106-143 | A write succeeds exactly where the path is neither root nor directory, no file lies above it and both quotas hold; then the file holds the content, its parents are directories and the counters follow; otherwise nothing changes |
| WorkspaceManager.DeleteOutcome | pkg/workspace/local.go:206-235 | A delete succeeds exactly on a file or a directory that is not the root; then exactly the path and what lies below it are gone and the counters are those of the rest; otherwise nothing changes |
| WorkspaceManager.Run | pkg/workspace/local.go:106-408 | So they are exact after every sequence of the three from any tree found under the root, and within quota if that tree was |
| WorkspaceRuns.LastTouch | pkg/workspace/local.go:106-408 | After every run a file holds what the last successful operation that touched it left: a write its content, a delete of it or above it nothing, a restore what its archive stages |
| WorkspaceRuns.NeverTouched | pkg/workspace/local.go:106-408 | A path no successful operation touched holds what was found there |
| Workspace.SnapshotEntries | pkg/workspace/local.go:312-344 | Every directory but the root and every file is listed once |
| Workspace.ExtractTarGz | pkg/workspace/local.go:410-494 | The extraction loop gives the specified tree and stops at the first failure |
| Workspace.ExtractBounded | pkg/workspace/local.go:410-494 | Whatever is extracted is a well-formed tree within the limits |
| Workspace.ExtractOneIs | pkg/workspace/local.go:424-494 | An entry is extracted exactly if nothing is in its way and, for a file, its content is complete and both quotas have room; what it adds, or that it adds nothing |
| Workspace.ExtractedFiles | pkg/workspace/local.go:410-494 | A successful extraction leaves in every file the content of its last entry, and no other files |
| Workspace.SnapshotRoundTrip | pkg/workspace/local.go:312-494 | Extracting a snapshot of a tree that fits the limits gives the tree and its usage |
| WorkspaceManager.RestoreSnapshot | pkg/workspace/local.go:347-408 | Restoring a snapshot under limits no smaller reproduces files, directories and usage |
| WorkspaceManager.RestoreOutcome | pkg/workspace/local.go:347-408 | A restore stages exactly a readable archive within the size limit that extracts, and succeeds exactly if no fault strikes; a failed one leaves the old tree, except after a failed roll-back (old tree in the backup) or recount (new tree in place) |
| WorkspaceManager.CountFiles | pkg/workspace/local.go:518-534 | The walk adds up the sizes and counts the files |
| WorkspaceManager.LocalManager.constructor | pkg/workspace/local.go:37-54 | A new manager's counters are those of the files found under its root |
| WorkspaceManager.LocalManager.Write | pkg/workspace/local.go:106-143 | The checks, the write and the counters act as in WriteOutcome |
| WorkspaceManager.LocalManager.Delete | pkg/workspace/local.go:206-235 | File and directory deletion act as in DeleteOutcome |
| WorkspaceManager.LocalManager.Restore | pkg/workspace/local.go:347-408 | Staging, backup, activation, roll-back and recount act as specified |
| WorkspaceManager.LocalManager.Recount | pkg/workspace/local.go:518-534 | The counters become those of the tree |
| Artifacts.ArtifactStore.constructor | pkg/artifact/memory_store.go:19-21 | A new artifact store is empty |
| Artifacts.ArtifactStore.Put | pkg/artifact/memory_store.go:23-36 | The blob is stored under its key and the reference describes it |
| Artifacts.ArtifactStore.LoadMemory | pkg/memory/snapshot.go:65-113 | A loaded memory is the stored one, with the size and digest the reference names |
| Artifacts.FetchStored | pkg/engine/workspace_snapshot.go:45-75 | A stored blob passes the checks of its own reference |
| Artifacts.FetchIs | pkg/memory/snapshot.go:65-113 | A blob is fetched exactly if it is stored under the key and has the size and digest the reference names |
| Artifacts.LoadsIs | pkg/engine/workspace_snapshot.go:45-75 | A memory is loaded exactly from a fetched memory blob, a tree exactly from a fetched snapshot within the archive limit that extracts to it |
| Engine.TrimKeeps | pkg/engine/engine.go:721-743 | Trimming leaves at most the limit, the leading system message first and then the latest messages |
| Engine.Budget | pkg/engine/engine.go:923-940 | A stop is due exactly when a cap is exceeded, the token cap first |
| EngineEvents.PushKeeps | pkg/engine/engine.go:766-785 | Events are numbered on without gaps |
| EngineEvents.PushedKinds | pkg/engine/engine.go:766-785 | Pushed one after the other, events are logged in order with the numbers 1..n; without a pusher none is |
| Engine.Consult | pkg/engine/engine.go:293-347 | One trimmed request within the caps, charged, and stopped exactly on a model error or an exceeded cap; the start of the step and every streamed token are announced |
| Engine.UseTools | pkg/engine/engine.go:391-449 | Every call is announced, answered under its id and its result announced, in order, until a tool breaks |
| Engine.Commit | pkg/engine/engine.go:454-531 | Memory and workspace are saved, under keys not used before, ahead of the step that refers to them |
| Engine.Finish | pkg/engine/engine.go:573-605 | The final step shares the checkpoint of the step before it |
| Engine.FailStep | pkg/engine/engine.go:745-764 | An error step is written and announced, and the run's last step does not move |
| Engine.Guard | pkg/engine/engine.go:239-291 | An abort writes a final step, a cancellation nothing |
| Engine.Act | pkg/engine/engine.go:366-616 | Tools, checkpoint and step keep the loop invariant or end the run as stated |
| Engine.Decide | pkg/engine/engine.go:533-616 | The run succeeds on the first final answer and gives up on the third cut-off answer in a row |
| Engine.Turn | pkg/engine/engine.go:238-616 | One turn keeps the loop invariant or ends the run as stated |
| Engine.BeginIs | pkg/engine/engine.go:181-236 | A fresh run begins at step 0 with the system message and the prompt, a resumed one behind its step with the messages and tree of the checkpoint; it fails to load exactly if the step or an artifact it names cannot be had |
| Engine.TurnFollows | pkg/engine/engine.go:238-616 | A turn's request, charge, answer and checkpoint are those of the reference conversation |
| Engine.TurnEndsRight | pkg/engine/engine.go:238-616 | A turn that ends the run does so in the step and for the reason the conversation calls for |
| Engine.TurnWhyRight | pkg/engine/engine.go:238-616 | A turn that ends the run does so for the reason its requests, answers, tools, saves, abort and caps give, the caps by MaxTokens and CostCap themselves |
| Engine.StatusFollows | pkg/engine/engine.go:238-631 | The run succeeds exactly if the last written answer is final and its final step was saved, is aborted exactly if it stopped at a step whose abort was requested, and fails otherwise |
| Engine.TurnEvents | pkg/engine/engine.go:238-616 | The events so far are those of the written steps and then of the end |
| Engine.RecordsRight | pkg/engine/engine.go:486-605 | Every step record has the kind its answer calls for and refers to what was saved for it; behind them comes at most the final step with the answer's checkpoint, the mark of an abort or an error step with its code |
| Engine.RunSays | pkg/engine/engine.go:357-449 | Every written step was saved with what was asked, the model's content and calls, and call by call the tool's text under the call's id; the next request is that, trimmed, with a request to continue after a cut-off answer |
| Engine.WithinCaps | pkg/engine/engine.go:923-940 | No request is sent once the answers before it cost more than MaxTokens or CostCap allows |
| Engine.Execute | pkg/engine/engine.go:116-631 | At most MaxSteps calls, each of at most 64 messages with the head kept and none after a cap is exceeded; every request, charge, checkpoint, artifact save and store call is that of the reference conversation, in order; reason and status as in TurnWhyRight and StatusFollows, events as in TurnEvents and numbered 1..n, records as in RecordsRight, steps start..LastStep, totals as spent |
| Checkpoints.StepsWritten | pkg/state/memory_store.go:538-548 | A run without steps ends with exactly the steps it put |
| Checkpoints.ExecutedSteps | pkg/engine/engine.go:238-631 | The step records are the block start..LastStep (one less if the last was lost), and the run's last step is its end, or one before after an error step |
| Checkpoints.HandledRun | pkg/engine/worker.go:180-214 | A message handled to the end leaves run and task with Execute's status and the run with that block of steps |
| Checkpoints.AlwaysTogether | pkg/engine/engine.go:454-526 | However the saves, step records and last-step updates of any number of runs follow each other, from empty stores, each run's step records and artifacts are exactly those of the calls it has made so far |
| Checkpoints.CheckpointsHold | pkg/memory/snapshot.go:36-113 | In every such state every checkpointed step leads back, through the size and digest checks, to the memory and workspace saved with it |
| Checkpoints.ResumeRestores | pkg/engine/engine.go:195-223 | In every such state resuming passes the checks and starts with exactly that memory and workspace tree |
| Checkpoints.ResumeConversation | pkg/engine/engine.go:195-223 | The memory behind the n-th step of a run is what its reference conversation had said by then |
| Checkpoints.RunAgain | pkg/engine/engine.go:454-526 | A second execution of a run overwrites the artifacts of a step but not its record: resuming from it then works exactly when the new blobs have the recorded sizes and digests and the new snapshot can be extracted, and restores the recorded memory exactly when the second execution said the same |
| Checkpoints.RunAgainLoses | pkg/engine/engine.go:454-526 | A run whose second execution says one message more: its step could be resumed from, and no longer can |

## Left out

- DynamoDB, SQS, S3 and the AWS pusher: their meaning depends on services outside the repository.
- Command line, HTTP API, configuration, telemetry, metrics, alerts and logs: no effect on the modelled state.
- Model clients, routing, pricing, built-in tools and prompt policy: arbitrary functions here.
- Redaction and truncation of event text, event payloads and pushing to connections: only the persisted kinds, order and numbers are modelled.
- RedriveDeadLetters: it does not conserve messages, and nothing is claimed about it.
- A queue without a tenant manager: the manager is always present here.
- Policy changes while a transition system runs: policies are fixed there; only the manager object changes them.
- MemoryQueueObject.MemoryQueue.Enqueue: a full channel counts as the caller's context ending; blocking is not modelled.
- DispatchRuns.BooksAgree: the reservations and the budget are promised for runs in which no admission is cancelled whose key a message holds; DispatchRuns.CancelKeepsBooksIff and DispatchLimits.LateCancelHappens say when and that it can happen.
- LifecycleProtocol.MutualExclusion: holds for orderly runs only; LifecycleExclusion.DeliveryBreaksExclusion and LifecycleProtocol.RecoveryBreaksExclusion are the runs that break it otherwise.
- LifecycleProtocol.DisagreementIsInTransit: for orderly runs only, for the same reason.
- LifecycleProtocol.AbortsOnlySuperseded: for orderly runs only, for the same reason.
- Other goroutines' calls of the manager between two tenants of one pop loop: a pop asks all tenants at one moment.
- Checkpoints.CheckpointsHold: for runs that are executed once; Checkpoints.RunAgain is about the others.
- Integer widths, floating-point rounding and Atoi's range check: integers are unbounded and costs are reals.
- Sharing of records by reference: records are values that methods put back.
- Timestamps of tasks, runs and steps, and run usage totals: recovery's staleness test is an argument, so any run may be found stale.
- MemoryStoreObject.MemoryStore.ListTasks: the order by creation time is not modelled, the listing may come in any order.
- MemoryStoreObject.MemoryStore.ListRuns: the order by start time is not modelled, the listing may come in any order.
- Store failures other than not found, conflict and already exists: the in-memory store has none.
- Worker.HandleMessage: the store is not touched by others during the call; interleavings are the subject of Lifecycle.
- EventLog.RunEvents.ReplayEvents: the map from task and run to logs and the listing for an empty task id are not modelled.
- Path cleaning, symbolic links and file modes: workspace paths are already normalized.
- Disk faults other than those of a restore, and a workspace used after its root was lost: not modelled.
- WorkspaceManager.LocalManager.Write: writing to a directory is refused, whichever error the directory's own size would give first.
- WorkspaceManager.LocalManager.Restore: reports success or failure but not the kind of error.
- Workspace.SnapshotEntries: the lexical order of the walk is not modelled; extraction is shown for any order.
- Engine.Execute: its promise about steps and result is for MaxSteps >= 0; a negative limit makes no call.
- Externalized step fields, tool state and step texts: only whether a save fails matters here.
- JSON, tar, gzip and SHA-256: encodings are inverse pairs, digests an arbitrary function.
- User ids, access checks by user and validation of request fields other than those of the checkpoint: not modelled.
- Context cancellation inside Check, Repair and RecoverStaleRuns: the loops run to the end.
