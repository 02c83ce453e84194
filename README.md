# Task scheduler assignment engine, modelled in Dafny

This project models the core of a simulated distributed task scheduler. The model covers:

- **Tasks**: requirements are validated and fixed; status, assigned worker, start time and retry count change.
- **Worker nodes**: each tracks CPU and memory usage against fixed totals, plus the tasks running on it keyed by task id.
- **The task queue**: three FIFO tiers (HIGH, MEDIUM, LOW), polled in strict priority order.
- **The registries**: one for tasks and one for workers, both keyed by id. The worker registry also generates auto-scaled workers.
- **`SchedulerService`**, the state machine over all of the above:
  - submission;
  - fastest-worker-first placement;
  - the completion sweep;
  - the queue drain, which stops at the first task no worker can take;
  - worker failover with retry counting;
  - timeouts, cancellation and auto-scaling.

Every entity the source updates in place is a Dafny `class` with the same fields: `Task`, `WorkerNode`, `TaskQueue`, `TaskRegistry`, `WorkerRegistry` and `SchedulerService`. Tasks are shared by reference between the registry, the queue tiers and the workers' running maps, as in the source. Each class is paired with a value view:

| class | value view |
|---|---|
| `WorkerNode` | `WorkerNode.State()`, a `Ledger` |
| `TaskQueue` | `TaskQueue.State()`, a `Tiers` |
| `SchedulerService` | `SchedulerService.Snap()`, a `System` snapshot |

Each method's `ensures` ties the new state to a pure transition of the old one. The snapshot transitions are `Assign`, `Requeue`, `Complete`, `Timeout`, `FailWorker`, `CancelQueued`, `CancelAssigned`, `AddTask`, `AddWorker`, `Pop` and `Retry`. What the source promises is then proved about these transitions as lemmas.

The scheduler invariant is `SystemModel.Valid`. It holds before and after every public service operation and states:

- (a) every worker's usage is within capacity and equals the summed demand of its running tasks;
- (b) a task is in the queue exactly when it is QUEUED;
- (c) an ASSIGNED task is in the running set of the active worker its `assignedTo` names.

Inside an operation a task can be *detached*: registered, but neither queued nor running, for example after a dequeue and before it is placed again. `ValidExcept(s, D)` states the invariant for every task outside the detached set `D`.

The clock is a parameter (`now`) of the service operations. Exceptions become `Result` and `Outcome` values carrying an `Error`.

Modules follow the source files:

| module | file | models |
|---|---|---|
| `Types` | `types.dfy` | shared vocabulary |
| `TaskModel` | `task.dfy` | `Task.java` |
| `WorkerModel` | `worker.dfy` | `WorkerNode.java` |
| `TaskQueues` | `queue.dfy` | `TaskQueue.java` |
| `TaskRegistries` | `task_registry.dfy` | `TaskRegistry.java` |
| `WorkerRegistries` | `worker_registry.dfy` | `WorkerRegistry.java` |
| `SystemModel` | `system.dfy` | value snapshots and invariants |
| `SweepModel` | `sweep.dfy` | the completion sweep on snapshots |
| `Draining` | `drain.dfy` | the queue drain on snapshots |
| `Scheduling` | `scheduler.dfy` | `SchedulerService.java` |

Where the code and its documentation disagree, the model follows the code:

- A COMPLETED task keeps its `assignedTo` and `startTime`.
- A cancelled ASSIGNED task keeps its `startTime`.
- No code path produces the FAILED status, so no operation of the model does either.

## Model

| member | source | states |
|---|---|---|
| TaskModel.Task.constructor | src/main/java/com/scheduler/model/Task.java:51-70 | a new task holds the given requirements and is QUEUED, unassigned, unstarted (-1) and never retried |
| TaskModel.TaskArgumentError | src/main/java/com/scheduler/model/Task.java:52-64 | the constructor rejects exactly a null id or a non-positive CPU, memory or execution time; a null id is reported first |
| TaskModel.NewTask | src/main/java/com/scheduler/model/Task.java:51-70 | fails exactly on invalid arguments with the constructor's first error; otherwise a fresh task with the given fields, priority defaulting to MEDIUM, in the initial state |
| TaskModel.Task.SetStatus | src/main/java/com/scheduler/model/Task.java:168-170 | sets the status and nothing else |
| TaskModel.Task.SetAssignedTo | src/main/java/com/scheduler/model/Task.java:180-182 | sets the assignment and nothing else |
| TaskModel.Task.SetStartTime | src/main/java/com/scheduler/model/Task.java:192-194 | sets the start time and nothing else |
| TaskModel.Task.IncrementRetryCount | src/main/java/com/scheduler/model/Task.java:202-204 | raises the retry count by exactly one and changes nothing else |
| TaskModel.Task.ResetForReassignment | src/main/java/com/scheduler/model/Task.java:212-216 | QUEUED, unassigned, start time -1; the retry count is kept |
| TaskModel.CompletionBoundary | src/main/java/com/scheduler/model/Task.java:227-232 | a started ASSIGNED task is complete at start + execution time (reaching the estimate exactly counts) and not one unit earlier |
| TaskModel.CompletionIsMonotone | src/main/java/com/scheduler/model/Task.java:227-232 | once complete, a task stays complete at every later time |
| WorkerModel.WorkerArgumentError | src/main/java/com/scheduler/model/WorkerNode.java:50-62 | the constructor rejects exactly a null id or a non-positive CPU total, memory total or speed, null id first |
| WorkerModel.NewWorker | src/main/java/com/scheduler/model/WorkerNode.java:49-67 | fails exactly on invalid arguments; otherwise a fresh valid worker that is ACTIVE, idle and runs nothing |
| WorkerModel.WorkerNode.constructor | src/main/java/com/scheduler/model/WorkerNode.java:49-67 | a new worker is ACTIVE with zero usage and an empty running map, and satisfies the ledger invariant |
| WorkerModel.WorkerNode.AvailableCpu | src/main/java/com/scheduler/model/WorkerNode.java:138-140 | free CPU lies between 0 and the total while usage is bounded |
| WorkerModel.WorkerNode.AvailableMemory | src/main/java/com/scheduler/model/WorkerNode.java:147-149 | free memory lies between 0 and the total while usage is bounded |
| WorkerModel.WorkerNode.SetStatus | src/main/java/com/scheduler/model/WorkerNode.java:171-173 | changes the status only; usage and running map are kept |
| WorkerModel.WorkerNode.AllocateResources | src/main/java/com/scheduler/model/WorkerNode.java:214-223 | the new ledger and the result are those of Ledger.Allocate |
| WorkerModel.WorkerNode.ReleaseResources | src/main/java/com/scheduler/model/WorkerNode.java:233-238 | the new ledger is that of Ledger.Release |
| WorkerModel.WorkerNode.GetRunningTasks | src/main/java/com/scheduler/model/WorkerNode.java:159-161 | lists exactly the running tasks, each once |
| WorkerModel.WorkerNode.ReleaseAllResources | src/main/java/com/scheduler/model/WorkerNode.java:251-257 | returns exactly the previously running tasks, each once, and leaves the worker empty with zero usage |
| WorkerModel.AllocateEffect | src/main/java/com/scheduler/model/WorkerNode.java:197-223 | allocation succeeds iff ACTIVE with enough free CPU and memory; it then adds exactly the task's demand and files it under its id; otherwise nothing changes; totals and status never change |
| WorkerModel.AllocateKeepsBounds | src/main/java/com/scheduler/model/WorkerNode.java:214-223 | allocation keeps 0 <= used <= total for CPU and memory |
| WorkerModel.AllocateKeepsBalance | src/main/java/com/scheduler/model/WorkerNode.java:214-223 | usage stays the summed demand of the running tasks when the id is not already running |
| WorkerModel.ReleaseKeepsBalance | src/main/java/com/scheduler/model/WorkerNode.java:233-238 | on a balanced ledger the clamp at zero never fires: release refunds exactly the task's demand and keeps the ledger bounded and balanced |
| WorkerModel.ReleaseKeepsBounds | src/main/java/com/scheduler/model/WorkerNode.java:233-238 | release keeps usage within capacity |
| WorkerModel.ReleaseIdempotent | src/main/java/com/scheduler/model/WorkerNode.java:233-238 | releasing twice is releasing once, and the task is gone afterwards |
| WorkerModel.AllocateThenRelease | src/main/java/com/scheduler/model/WorkerNode.java:214-238 | releasing a task right after a successful allocation restores the ledger exactly |
| WorkerModel.ReleaseAllEmpties | src/main/java/com/scheduler/model/WorkerNode.java:251-257 | releasing everything leaves no running task, zero usage, a bounded and balanced ledger, and the same totals and status |
| WorkerModel.TotalRemove | src/main/java/com/scheduler/model/WorkerNode.java:233-238 | taking a task out of a running set takes exactly its demand out of the summed demand |
| WorkerModel.TotalAdd | src/main/java/com/scheduler/model/WorkerNode.java:219-221 | adding a task under an unused id adds exactly its demand to the summed demand |
| TaskQueues.Tiers.Enqueue | src/main/java/com/scheduler/queue/TaskQueue.java:60-67 | appends the task to its own tier, leaves the other tiers alone, grows the size by one and adds the task to the contents |
| TaskQueues.Tiers.Dequeue | src/main/java/com/scheduler/queue/TaskQueue.java:79-93 | empty with no change iff all tiers are empty; otherwise hands out the head of the HIGH, MEDIUM, LOW order and leaves its rest |
| TaskQueues.Tiers.Remove | src/main/java/com/scheduler/queue/TaskQueue.java:106-113 | found iff t's own tier holds t's id; when found the size drops by one, otherwise nothing changes; other tiers are untouched |
| TaskQueues.Tiers.Size | src/main/java/com/scheduler/queue/TaskQueue.java:123-132 | the sum of the tier lengths is the length of the dequeue order |
| TaskQueues.RemoveFirstAt | src/main/java/com/scheduler/queue/TaskQueue.java:109 | a FIFO's remove deletes exactly the position of the first element with the id |
| TaskQueues.RemoveFirstMiss | src/main/java/com/scheduler/queue/TaskQueue.java:109 | a FIFO's remove changes nothing when no element has the id |
| TaskQueues.EnqueueInsertsAtTierTail | src/main/java/com/scheduler/queue/TaskQueue.java:60-67 | in dequeue order, an enqueued task lands right behind every task of its own tier and ahead of all lower tiers |
| TaskQueues.EnqueueWellFormed | src/main/java/com/scheduler/queue/TaskQueue.java:60-67 | enqueuing a task whose id is not queued keeps tiers priority-pure and ids unique |
| TaskQueues.DequeueWellFormed | src/main/java/com/scheduler/queue/TaskQueue.java:79-93 | dequeuing keeps the tiers well formed |
| TaskQueues.DequeueTakesHighestPriority | src/main/java/com/scheduler/queue/TaskQueue.java:79-93 | the dequeued task has the highest priority (smallest rank) of all queued tasks |
| TaskQueues.DrainIsOrder | src/main/java/com/scheduler/queue/TaskQueue.java:79-93 | dequeuing until empty hands out exactly HIGH, then MEDIUM, then LOW, each in FIFO order |
| TaskQueues.DropIsSuffix | src/main/java/com/scheduler/queue/TaskQueue.java:79-93 | after k dequeues the queue holds the order without its first k tasks, still well formed |
| TaskQueues.FifoWithinTier | src/main/java/com/scheduler/queue/TaskQueue.java:60-93 | a task already waiting at t's priority is handed out before t |
| TaskQueues.RemoveEffect | src/main/java/com/scheduler/queue/TaskQueue.java:106-113 | removing a queued task takes exactly that task out; an id that is not queued leaves the queue unchanged; well-formedness is kept |
| TaskQueues.TaskQueue.constructor | src/main/java/com/scheduler/queue/TaskQueue.java:43-48 | a new queue has three empty tiers |
| TaskQueues.TaskQueue.Enqueue | src/main/java/com/scheduler/queue/TaskQueue.java:60-67 | the new state is Tiers.Enqueue of the old |
| TaskQueues.TaskQueue.Dequeue | src/main/java/com/scheduler/queue/TaskQueue.java:79-93 | result and new state are Tiers.Dequeue of the old |
| TaskQueues.TaskQueue.Remove | src/main/java/com/scheduler/queue/TaskQueue.java:106-113 | result and new state are Tiers.Remove of the old |
| TaskQueues.TaskQueue.Size | src/main/java/com/scheduler/queue/TaskQueue.java:123-132 | the size is the length of the dequeue order |
| TaskQueues.TaskQueue.IsEmpty | src/main/java/com/scheduler/queue/TaskQueue.java:142-144 | empty iff the order is empty, which is exactly when a dequeue would find nothing |
| TaskQueues.TaskQueue.Clear | src/main/java/com/scheduler/queue/TaskQueue.java:152-161 | all three tiers become empty |
| TaskQueues.TaskQueue.GetQueueForPriority | src/main/java/com/scheduler/queue/TaskQueue.java:172-178 | the tier served for a priority holds only tasks of that priority |
| TaskRegistries.TaskRegistry.constructor | src/main/java/com/scheduler/registry/TaskRegistry.java:36-38 | a new registry is empty |
| TaskRegistries.TaskRegistry.Register | src/main/java/com/scheduler/registry/TaskRegistry.java:51-56 | fails with DuplicateEntity iff the id is registered, and then nothing changes; otherwise adds id -> task |
| TaskRegistries.TaskRegistry.GetTask | src/main/java/com/scheduler/registry/TaskRegistry.java:70-76 | succeeds iff the id is registered, with the task filed under it; otherwise NotFound |
| TaskRegistries.TaskRegistry.GetTasksByStatus | src/main/java/com/scheduler/registry/TaskRegistry.java:103-107 | lists exactly the registered tasks with that status, each once |
| TaskRegistries.TaskRegistry.GetTasksByWorker | src/main/java/com/scheduler/registry/TaskRegistry.java:118-122 | lists exactly the registered tasks assigned to that worker, each once |
| TaskRegistries.TaskRegistry.GetTaskCount | src/main/java/com/scheduler/registry/TaskRegistry.java:132-134 | the number of registered ids; zero exactly when every lookup fails |
| TaskRegistries.TaskRegistry.ContainsTask | src/main/java/com/scheduler/registry/TaskRegistry.java:155-157 | holds iff a lookup of the id succeeds |
| TaskRegistries.TaskRegistry.Clear | src/main/java/com/scheduler/registry/TaskRegistry.java:142-144 | empties the registry |
| WorkerRegistries.AutoIdDistinct | src/main/java/com/scheduler/registry/WorkerRegistry.java:154 | different numeric suffixes give different auto-scaled ids |
| Types.NatToStringInjective | src/main/java/com/scheduler/registry/WorkerRegistry.java:154 | the decimal rendering of a number used in the id is injective |
| WorkerRegistries.WorkerRegistry.constructor | src/main/java/com/scheduler/registry/WorkerRegistry.java:41-44 | a new registry is empty with the counter at 1 |
| WorkerRegistries.WorkerRegistry.Register | src/main/java/com/scheduler/registry/WorkerRegistry.java:57-62 | fails with DuplicateEntity iff the id is registered, and then nothing changes; otherwise adds the worker; the counter is untouched |
| WorkerRegistries.WorkerRegistry.GetWorker | src/main/java/com/scheduler/registry/WorkerRegistry.java:74-80 | succeeds iff the id is registered, with the worker filed under it; otherwise NotFound |
| WorkerRegistries.WorkerRegistry.ContainsWorker | src/main/java/com/scheduler/registry/WorkerRegistry.java:198-200 | holds iff a lookup of the id succeeds |
| WorkerRegistries.WorkerRegistry.GetWorkersByStatus | src/main/java/com/scheduler/registry/WorkerRegistry.java:119-123 | lists exactly the registered workers with that status, each once |
| WorkerRegistries.WorkerRegistry.GetActiveWorkers | src/main/java/com/scheduler/registry/WorkerRegistry.java:104-108 | lists exactly the registered ACTIVE workers, each once |
| WorkerRegistries.WorkerRegistry.GetWorkerCount | src/main/java/com/scheduler/registry/WorkerRegistry.java:171-173 | the number of registered ids; zero exactly when every lookup fails |
| WorkerRegistries.WorkerRegistry.GetActiveWorkerCount | src/main/java/com/scheduler/registry/WorkerRegistry.java:183-187 | the number of distinct active workers, which is the length of the active listing |
| WorkerRegistries.WorkerRegistry.MarkWorkerFailed | src/main/java/com/scheduler/registry/WorkerRegistry.java:137-141 | unknown id: NotFound; otherwise the worker is INACTIVE, empty and idle, and the result lists exactly its former running tasks, each once |
| WorkerRegistries.WorkerRegistry.ReactivateWorker | src/main/java/com/scheduler/registry/WorkerRegistry.java:222-229 | true iff the worker exists and is inactive, and then it becomes ACTIVE with nothing else changed; otherwise nothing changes |
| WorkerRegistries.WorkerRegistry.AutoScaleWorkerAsWritten | src/main/java/com/scheduler/registry/WorkerRegistry.java:153-161 | id "W" + (size + counter), a suffix never handed out before; counter + 1; a fresh ACTIVE 2/4/10 worker stored over whatever had that id |
| WorkerRegistries.AutoScaleCollision | src/main/java/com/scheduler/registry/WorkerRegistry.java:153-161 | with only "W2" registered, the as-written auto-scale generates "W2" and the registered worker is gone |
| WorkerRegistries.WorkerRegistry.AutoScaleWorker | src/main/java/com/scheduler/registry/WorkerRegistry.java:153-161 | corrected: suffixes whose id is taken are skipped; the fresh 2/4/10 worker gets an unused id, every queried suffix before it was taken, and the counter advanced once per suffix drawn |
| WorkerRegistries.WorkerRegistry.SkipTaken | src/main/java/com/scheduler/registry/WorkerRegistry.java:154 | draws suffixes from the counter until the id is unused, skipping only taken ids |
| WorkerRegistries.AutoScaleNoCollision | src/main/java/com/scheduler/registry/WorkerRegistry.java:153-161 | the corrected auto-scale keeps "W2" and adds "W3" |
| WorkerRegistries.ClaimedShrinks | src/main/java/com/scheduler/registry/WorkerRegistry.java:154 | skipping a taken suffix strictly shrinks the taken auto-scaled ids ahead, so the skipping ends |
| WorkerRegistries.WorkerRegistry.Clear | src/main/java/com/scheduler/registry/WorkerRegistry.java:208-211 | empties the registry and resets the counter to 1 |
| SystemModel.EmptyIsValid | src/main/java/com/scheduler/service/SchedulerService.java:22-28 | the empty scheduler satisfies invariants (a), (b) and (c) |
| SystemModel.RunsOnOne | src/main/java/com/scheduler/service/SchedulerService.java:59-66 | in a valid state a task runs on at most one worker |
| SystemModel.QueuedEntry | src/main/java/com/scheduler/service/SchedulerService.java:95-115 | every queued task of a valid state is registered and QUEUED |
| SystemModel.DetachedIsNowhere | src/main/java/com/scheduler/service/SchedulerService.java:95-115 | a detached task is neither queued nor running anywhere |
| SystemModel.AddTaskDetaches | src/main/java/com/scheduler/service/SchedulerService.java:30-33 | registering a task under a new id keeps everything else valid, with the task detached |
| SystemModel.AddWorkerKeeps | src/main/java/com/scheduler/service/SchedulerService.java:189-200 | registering a new idle worker keeps the scheduler valid |
| SystemModel.PopDetaches | src/main/java/com/scheduler/service/SchedulerService.java:98-103 | the popped head was registered and QUEUED, and is detached afterwards |
| SystemModel.RequeueAttaches | src/main/java/com/scheduler/service/SchedulerService.java:43-46 | queueing a detached task re-attaches it, QUEUED at the tail of its tier |
| SystemModel.RemoveQueuedDetaches | src/main/java/com/scheduler/service/SchedulerService.java:166 | taking a queued task out of the queue detaches it |
| SystemModel.AssignAttaches | src/main/java/com/scheduler/service/SchedulerService.java:59-66 | assigning a detached task to a worker that can take it succeeds, re-attaches it ASSIGNED to that worker and started at now, and keeps the scheduler valid |
| SystemModel.ReleaseDetaches | src/main/java/com/scheduler/service/SchedulerService.java:135-140 | releasing a running task from its worker detaches it |
| SystemModel.FailWorkerDetaches | src/main/java/com/scheduler/service/SchedulerService.java:117-118 | a failed worker goes inactive and empty, detaching exactly the tasks that ran on it |
| SystemModel.SetDetachedInfo | src/main/java/com/scheduler/service/SchedulerService.java:123-124 | changing the fields of a detached task keeps everything else valid |
| SystemModel.SettleAttaches | src/main/java/com/scheduler/service/SchedulerService.java:174-175 | a detached task settling as COMPLETED or CANCELLED is re-attached |
| SystemModel.CompleteKeepsValid | src/main/java/com/scheduler/service/SchedulerService.java:90-93 | completing a running task keeps the scheduler valid; the task ends COMPLETED, still naming its worker |
| SystemModel.TimeoutKeepsValid | src/main/java/com/scheduler/service/SchedulerService.java:135-140 | a timed-out task is released, reset to QUEUED, unassigned and unstarted with one more retry, and the scheduler stays valid |
| SystemModel.CancelQueuedKeepsValid | src/main/java/com/scheduler/service/SchedulerService.java:165-168 | cancelling a queued task takes exactly it out of the queue and keeps the scheduler valid |
| SystemModel.CancelAssignedKeepsValid | src/main/java/com/scheduler/service/SchedulerService.java:170-175 | cancelling a running task releases it and keeps the scheduler valid |
| SweepModel.FinishStep | src/main/java/com/scheduler/service/SchedulerService.java:80-83 | completing one more running task extends a partial sweep by that task |
| SweepModel.FinishValid | src/main/java/com/scheduler/service/SchedulerService.java:71-84 | completing any set of running tasks keeps the scheduler valid |
| SweepModel.DueOnActive | src/main/java/com/scheduler/service/SchedulerService.java:71 | only active workers hold due tasks, so sweeping the active workers sweeps them all |
| SweepModel.DueOnOne | src/main/java/com/scheduler/service/SchedulerService.java:74-78 | a worker's due tasks are exactly its running tasks that are complete |
| SweepModel.FinishUntouched | src/main/java/com/scheduler/service/SchedulerService.java:71-84 | sweeping other workers leaves a worker and its tasks as they were |
| SweepModel.SweepEffect | src/main/java/com/scheduler/service/SchedulerService.java:68-88 | the sweep keeps the scheduler valid and changes exactly the due tasks: they become COMPLETED (keeping assignment and start time) and leave their workers; nothing else changes and no due task remains |
| SweepModel.SweepIdempotent | src/main/java/com/scheduler/service/SchedulerService.java:68-84 | sweeping twice at the same time is sweeping once |
| Draining.PartialStep | src/main/java/com/scheduler/service/SchedulerService.java:98-108 | placing the popped head places the next task of the original order |
| Draining.PartialEmpty | src/main/java/com/scheduler/service/SchedulerService.java:98-101 | a drain that finds the queue empty has placed every queued task |
| Draining.PartialBlocked | src/main/java/com/scheduler/service/SchedulerService.java:109-112 | a head no worker can take goes back to the tail of its tier and the drain is over, later tasks untouched |
| Scheduling.FindFastestWorker | src/main/java/com/scheduler/service/SchedulerService.java:50-57 | none iff no listed worker is active with room; otherwise a listed eligible worker at least as fast as every eligible one |
| Scheduling.FastestIndex | src/main/java/com/scheduler/service/SchedulerService.java:56 | the maximum by speed keeps the earliest of equally fast eligible workers |
| Scheduling.TimeoutThreshold | src/main/java/com/scheduler/service/SchedulerService.java:152 | the integer floor of 1.2 x execution time, and never below the execution time |
| Scheduling.ReportsFrom | src/main/java/com/scheduler/service/SchedulerService.java:72-78 | a repetition-free list whose members are exactly the due tasks reports them |
| Scheduling.CompletedGrows | src/main/java/com/scheduler/service/SchedulerService.java:80-83 | appending one more worker's due tasks to the report reports the due tasks of both, with nothing repeated |
| Scheduling.FailingAffects | src/main/java/com/scheduler/service/SchedulerService.java:118 | the failed worker's returned list is its running set, each task filed under its id |
| Scheduling.FailingOverStep | src/main/java/com/scheduler/service/SchedulerService.java:121-130 | dealing with the next affected task (reset, one more retry, placed or queued, listed iff placed) keeps the failover on track, provided the step leaves no worker emptier and queues the task only when no worker can take it; every requeued task still fits on no worker |
| Scheduling.FailingOverDone | src/main/java/com/scheduler/service/SchedulerService.java:117-133 | at the end of the affected list the failover is complete |
| Scheduling.AssignedRuns | src/main/java/com/scheduler/service/SchedulerService.java:149-150 | in a valid state an ASSIGNED task names a registered worker whose running set holds it |
| Scheduling.ReassignedElsewhere | src/main/java/com/scheduler/service/SchedulerService.java:117-133 | after a failover each reassigned task runs on an active worker other than the failed one, and every other former task of that worker is QUEUED in the queue; each tier is the old tier followed by the requeued tasks of its priority, in order |
| Scheduling.SchedulerService.constructor | src/main/java/com/scheduler/service/SchedulerService.java:22-28 | the service over an empty queue and empty registries is valid |
| Scheduling.SchedulerService.AssignToWorker | src/main/java/com/scheduler/service/SchedulerService.java:59-66 | the new snapshot is Assign: allocate, and only on success mark ASSIGNED to w at now and drop the queue entry |
| Scheduling.SchedulerService.CompleteTask | src/main/java/com/scheduler/service/SchedulerService.java:90-93 | the new snapshot is Complete: COMPLETED and released from its worker |
| Scheduling.SchedulerService.TimeoutTask | src/main/java/com/scheduler/service/SchedulerService.java:135-140 | the new snapshot is Timeout: released, reset, one more retry, enqueued |
| Scheduling.SchedulerService.ChooseWorker | src/main/java/com/scheduler/service/SchedulerService.java:36-37 | none iff no registered worker can take the task; otherwise a registered worker that can and is at least as fast as every other that can |
| Scheduling.SchedulerService.TryAssignTask | src/main/java/com/scheduler/service/SchedulerService.java:35-48 | true iff some worker can take the task, and then it is assigned to the fastest such worker; otherwise it is QUEUED at the tail of its tier; the invariant is restored for it |
| Scheduling.SchedulerService.PlaceNew | src/main/java/com/scheduler/service/SchedulerService.java:32 | a just-registered task is assigned to the fastest worker that can take it, or QUEUED when there is none; the invariant is restored |
| Scheduling.SchedulerService.SubmitTask | src/main/java/com/scheduler/service/SchedulerService.java:30-33 | a duplicate id fails with nothing changed; otherwise the task is registered and placed by exactly one assignment attempt; the invariant is kept |
| Scheduling.SchedulerService.TakeHead | src/main/java/com/scheduler/service/SchedulerService.java:98-101 | empty iff the queue is empty, with nothing changed; otherwise the head of the dequeue order, and the snapshot is Pop |
| Scheduling.SchedulerService.PopHead | src/main/java/com/scheduler/service/SchedulerService.java:98-101 | as TakeHead, and a popped head was registered and QUEUED and is the only detached task afterwards |
| Scheduling.SchedulerService.AssignQueued | src/main/java/com/scheduler/service/SchedulerService.java:95-115 | Drained: the first n tasks in dequeue order are ASSIGNED at now, the i-th to a fastest worker that could take it after the first i placements; either the queue is empty or task n + 1 had no candidate and went back to the tail of its tier; no other task changes and no worker changes its status or capacity; the invariant is kept |
| Scheduling.SchedulerService.CompleteActive | src/main/java/com/scheduler/service/SchedulerService.java:71-84 | the new snapshot is the sweep of the old, and the result reports exactly its due tasks, each once |
| Scheduling.SchedulerService.ProcessCompletedTasks | src/main/java/com/scheduler/service/SchedulerService.java:68-88 | reports exactly the due tasks, each once; the end state is a drain at now of the swept state, in which each placed task goes to a fastest worker that can take it at that point of the drain, and no worker changes its status or capacity; the invariant is kept |
| Scheduling.SchedulerService.HandleWorkerFailure | src/main/java/com/scheduler/service/SchedulerService.java:117-133 | unknown id: NotFound, nothing changed; otherwise FailedOver: the worker is INACTIVE and empty; every other worker keeps its status and capacity; each former task has one more retry and is either ASSIGNED again, started at now and listed in the result (each once), or QUEUED, unassigned and unstarted (-1) and listed in the ghost `requeued` (each once), and then no worker can take it in the final state; the queue is the old queue with the `requeued` tasks enqueued in that order, so each tier is the old tier followed by the requeued tasks of its priority; no other task changes; the invariant is kept |
| Scheduling.SchedulerService.FailNode | src/main/java/com/scheduler/service/SchedulerService.java:118 | unknown id: NotFound; otherwise the snapshot is FailWorker and the returned tasks are exactly the detached former running tasks |
| Scheduling.SchedulerService.SimulateTaskTimeout | src/main/java/com/scheduler/service/SchedulerService.java:142-159 | unknown id: NotFound; not ASSIGNED or below the threshold: nothing changes; otherwise Timeout on its assigned worker followed by a drain at now + elapsed, in which each placed task goes to a fastest worker that can take it at that point of the drain, and no worker changes its status or capacity; the invariant is kept |
| Scheduling.SchedulerService.CancelTask | src/main/java/com/scheduler/service/SchedulerService.java:161-187 | unknown id: NotFound; true iff QUEUED or ASSIGNED: QUEUED ones leave the queue as CANCELLED; ASSIGNED ones are released, unassigned and CANCELLED (start time kept), then the queue is drained at now, and in that drain each placed task goes to a fastest worker that can take it at that point of the drain, and no worker changes its status or capacity; any other status: false and nothing changes |
| Scheduling.SchedulerService.AutoScale | src/main/java/com/scheduler/service/SchedulerService.java:189-200 | empty queue: none and nothing changes; otherwise a fresh ACTIVE 2/4/10 worker under an unused id is added and the queue is drained, and in that drain each placed task goes to a fastest worker that can take it at that point of the drain, and no worker changes its status or capacity; the invariant is kept |
| Scheduling.SchedulerService.SelectComplete | src/main/java/com/scheduler/service/SchedulerService.java:72-78 | keeps exactly the tasks of the list that are complete at now, without repetition |
| Draining.TraceStep | src/main/java/com/scheduler/service/SchedulerService.java:97-108 | one more round extends the record of a drain: the round pops the head and assigns it at now to a fastest worker that can take it |
| Draining.SettledStep | src/main/java/com/scheduler/service/SchedulerService.java:104-108 | assigning the next task of the original order to a worker that can take it settles one more task: only that task changes, and every worker keeps its status and capacity |
| Draining.PopLeaves | src/main/java/com/scheduler/service/SchedulerService.java:98-103 | the head of a partial drain is the next task of the original order, no earlier placed task has its id, and once it is dequeued the queue no longer holds it, so the remove inside the assignment changes nothing |
| TaskQueues.OnlyWithId | src/main/java/com/scheduler/queue/TaskQueue.java:106-113 | a task in a well-formed queue is the only queued task with its id, so removing by id takes out that very task |
| Scheduling.SchedulerService.DrainStep | src/main/java/com/scheduler/service/SchedulerService.java:97-113 | one pass of the loop: either the head goes to a fastest worker and the partial drain grows by it, or the drain is complete (queue empty, or head put back); the invariant is restored |
| Scheduling.SchedulerService.RouteHead | src/main/java/com/scheduler/service/SchedulerService.java:104-112 | a dequeued head goes to a fastest worker that can take it, and the drain goes on; if no worker can take it, it goes back to the tail of its tier and the drain is complete |
| Scheduling.SchedulerService.PlaceHead | src/main/java/com/scheduler/service/SchedulerService.java:107-108 | assigning a dequeued head to a fastest worker extends the partial drain by one task and restores the invariant |
| Scheduling.SchedulerService.BlockHead | src/main/java/com/scheduler/service/SchedulerService.java:109-112 | a dequeued head no worker can take is enqueued again and the drain is complete |
| Scheduling.SchedulerService.RetryTask | src/main/java/com/scheduler/service/SchedulerService.java:123-124 | the snapshot is Retry: only that task changes, to QUEUED, unassigned, unstarted, with one more retry |
| Scheduling.RetriedPlacement | src/main/java/com/scheduler/service/SchedulerService.java:121-128 | placing a retried task again on a fastest worker, or queueing it when no worker can take it, changes only its own entry, keeps every worker's status and capacity, leaves no worker with less usage and leaves the failed worker alone; a queued task still fits on no worker; the task is redone, ASSIGNED exactly when it was placed; the queue is unchanged when it was placed and has it appended to its tier otherwise |
| Scheduling.TallyStep | src/main/java/com/scheduler/service/SchedulerService.java:126-128 | dealing with the next affected task adds it to the list of tasks ending in a given status (ASSIGNED for the reassigned list, QUEUED for the requeued one) exactly when it ends in that status, keeping the list free of repetition |
| Scheduling.TalliesStep | src/main/java/com/scheduler/service/SchedulerService.java:121-130 | dealing with the next affected task lists it as reassigned when it ends ASSIGNED and as requeued when it ends QUEUED, and the queue stays the start queue with the requeued tasks enqueued in order; since no worker gets emptier, no requeued task, old or new, fits on any worker |
| SystemModel.NoCandidateStays | src/main/java/com/scheduler/model/WorkerNode.java:197-201 | once every worker has the same status and capacity and no less usage, a task that no worker could accommodate still fits on none |
| Scheduling.RedoingStep | src/main/java/com/scheduler/service/SchedulerService.java:122-124 | redoing the next affected task, and changing no other entry, extends the run of redone tasks by one while the failed worker stays inactive and empty |
| Scheduling.AffectedIdsDiffer | src/main/java/com/scheduler/model/WorkerNode.java:251-252 | the affected tasks, the values of the failed worker's running map keyed by task id, never share an id |
| Scheduling.SchedulerService.ReassignOne | src/main/java/com/scheduler/service/SchedulerService.java:122-128 | one affected task is reset, counts one more retry and is placed again exactly when some worker can take it, on a fastest such worker, and queued otherwise, when it then still fits on no worker; only its entry changes, every worker keeps its status and capacity and no worker's usage drops; the result is true exactly when it ends ASSIGNED, the queue is unchanged then and otherwise has the task appended at the tail of its tier |
| Scheduling.SchedulerService.FailOverAll | src/main/java/com/scheduler/service/SchedulerService.java:121-130 | dealing with every affected task in turn completes the failover (FailedOver), including the queue, the old queue with the requeued tasks enqueued in order, and that no requeued task fits on any worker at the end |
| TaskQueues.EnqueueAllTiers | src/main/java/com/scheduler/queue/TaskQueue.java:60-67 | enqueuing a list of tasks one after the other leaves every tier as it was, followed by the listed tasks of its priority in list order |
| Scheduling.SchedulerService.RegisterTask | src/main/java/com/scheduler/service/SchedulerService.java:31 | slice of SubmitTask: a duplicate id fails with DuplicateEntity and nothing changed; otherwise the snapshot gains the task with its own state (AddTask) |
| Scheduling.SchedulerService.RequeueTask | src/main/java/com/scheduler/service/SchedulerService.java:44-45 | slice of TryAssignTask: the task is marked QUEUED and appended to its tier (Requeue) |
| Scheduling.SchedulerService.MarkAssigned | src/main/java/com/scheduler/service/SchedulerService.java:61-64 | slice of assignToWorker: the task becomes ASSIGNED to the worker, started at now, and leaves the queue; nothing else changes |
| Scheduling.SchedulerService.CancelQueuedTask | src/main/java/com/scheduler/service/SchedulerService.java:166-167 | slice of cancelTask: a queued task leaves the queue and is CANCELLED (CancelQueued) |
| Scheduling.SchedulerService.PutBack | src/main/java/com/scheduler/service/SchedulerService.java:111 | slice of assignQueued: a still QUEUED head that no worker can take goes back to the tail of its tier (Requeue) |
| Scheduling.SchedulerService.WorkerOf | src/main/java/com/scheduler/service/SchedulerService.java:149-150 | slice of simulateTaskTimeout: the worker of an ASSIGNED task is the registered worker named by its assignment, and it runs the task |
| Scheduling.SchedulerService.ExpireTask | src/main/java/com/scheduler/service/SchedulerService.java:155-157 | slice of simulateTaskTimeout: the task is timed out on its worker (Timeout) and the queue is then drained at the given time (Drained); the invariant is kept |
| Scheduling.SchedulerService.AddScaledWorker | src/main/java/com/scheduler/service/SchedulerService.java:194 | slice of autoScale: a fresh worker with the default totals and speed, ACTIVE and idle, is registered under an id not used before (AddWorker) |
| Scheduling.SchedulerService.CompleteListed | src/main/java/com/scheduler/service/SchedulerService.java:71-84 | the sweep loop over the listed active workers completes exactly the tasks due on them (Finish of DueOn) and reports exactly those |
| Scheduling.SchedulerService.DueHere | src/main/java/com/scheduler/service/SchedulerService.java:74-78 | the listed tasks are exactly the running tasks of the worker that are due at now, each once |
| Scheduling.SchedulerService.CompleteOne | src/main/java/com/scheduler/service/SchedulerService.java:81 | completing one more due task running on its worker extends the set of finished tasks by it (Finish) |
| Scheduling.SchedulerService.FailOverNext | src/main/java/com/scheduler/service/SchedulerService.java:121-130 | dealing with the next affected task keeps the failover on track (FailingOver: redone, tallied as reassigned or requeued, no requeued task fits on any worker, the queue as enqueued) one step further and keeps the invariant for the rest |
| Scheduling.SchedulerService.FailOverEach | src/main/java/com/scheduler/service/SchedulerService.java:121-130 | the failover loop deals with every affected task, in order, and ends with the failover on track at the end of the list (FailingOver, including that no requeued task fits on any worker) |
| Scheduling.SchedulerService.StopWorker | src/main/java/com/scheduler/service/SchedulerService.java:118 | the snapshot is FailWorker; the result lists exactly the worker's former running tasks, each once |
| Scheduling.SchedulerService.CancelAssignedTask | src/main/java/com/scheduler/service/SchedulerService.java:171-175 | the snapshot is CancelAssigned: released from its worker, CANCELLED and unassigned |
| Scheduling.SchedulerService.CancelWaiting | src/main/java/com/scheduler/service/SchedulerService.java:165-168 | a QUEUED task leaves the queue and becomes CANCELLED (CancelQueued); the invariant is kept |
| Scheduling.SchedulerService.CancelRunning | src/main/java/com/scheduler/service/SchedulerService.java:170-176 | an ASSIGNED task names a registered worker; it is cancelled there and the queue is drained at now; the invariant is kept |
| Scheduling.SchedulerService.ScaleAndDrain | src/main/java/com/scheduler/service/SchedulerService.java:194-197 | a fresh ACTIVE 2/4/10 worker under an unused id is added and the queue is drained at now; the invariant is kept |

## Left out

- Locks, `ConcurrentHashMap`, `ConcurrentLinkedQueue` and `AtomicInteger` are not modelled: everything is sequential, and the capacity re-check inside `allocateResources` is then never the deciding one.
- Scheduling.TimeoutThreshold: the source computes `(long)(executionTime * 1.2)` in floating point; the model uses `executionTime * 6 / 5`, assumed equal for positive execution times.
- Java `int` and `long` widths are not modelled (integers are unbounded), so overflow of usage, times or the auto-scale counter is not captured.
- Hash-map iteration order is not modelled: listings of tasks and workers, the running tasks handed back by a worker and the order of the failover loop come out in an unspecified order; the contracts fix their contents, not their order.
- Scheduling.FindFastestWorker: the tie-break keeps the earliest of equally fast workers in the listing, but since the registry's listing order is unspecified, which of several equally fast workers the service picks is not determined by the contracts (`ChooseWorker` only promises a fastest one).
- Exceptions become `Result`/`Outcome` values; the lookups of an assigned task's worker in `simulateTaskTimeout` and `cancelTask` cannot fail in a valid state, so their error paths are not modelled.
- `getAllTasks` and `getAllWorkers` are not modelled (plain copies of the registry's values, in hash order).
- `equals`, `hashCode` and `toString` are not modelled: identity by id is captured by keying every map on ids, and string formatting is display only.
- The demonstration driver `Main.java` and the facade `DistributedTaskScheduler.java` are not part of this model; the clock they hold is the `now` parameter, and workers are registered through the registry rather than through the facade.
- No code path produces the FAILED status; it exists in `TaskStatus` and `cancelTask` treats it as terminal.
- Scheduling.SchedulerService.HandleWorkerFailure: does not say which worker each reassigned task went to beyond "an active worker other than the failed one" (`ReassignedElsewhere`), because the choice depends on the state left by the earlier reassignments of the same loop; each single step (`ReassignOne`) does state that it picks a fastest worker, and the end state states that no requeued task fits anywhere.
- Scheduling.SchedulerService.AutoScale: uses the corrected auto-scaling (see Findings), so it never replaces a registered worker, unlike the source.

## Findings

| source | as written | input that shows it | evidently intended | confidence | as-written member | corrected member |
|---|---|---|---|---|---|---|
| src/main/java/com/scheduler/registry/WorkerRegistry.java:153-161 | the id `"W" + (size + counter)` is stored with `put` and no duplicate check | only `"W2"` registered, counter 1: the auto-scaled id is `"W2"` and the registered worker, with any tasks it runs, silently leaves the registry | an auto-scaled worker gets an id no registered worker has | not executed | WorkerRegistries.WorkerRegistry.AutoScaleWorkerAsWritten (scenario WorkerRegistries.AutoScaleCollision) | WorkerRegistries.WorkerRegistry.AutoScaleWorker (scenario WorkerRegistries.AutoScaleNoCollision) |
