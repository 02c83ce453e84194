/**
  The task entity: immutable, validated requirements and a mutable execution state
  (status, assigned worker, start time, retry count) that only the scheduling service changes.
 */
module TaskModel {
  import opened Types

  /** The start time of a task that has not started; any negative start time reads as unset. */
  const Unset: int := -1

  class Task {
    const id: TaskId
    const cpu: Pos
    const memory: Pos
    const executionTime: Pos
    const priority: Priority

    var status: TaskStatus
    var assignedTo: Option<WorkerId>
    var startTime: int
    var retryCount: nat

    /** A new task waits in the queue, unassigned, unstarted and never retried. */
    constructor (id: TaskId, cpu: Pos, memory: Pos, executionTime: Pos, priority: Priority)
      ensures this.id == id && this.cpu == cpu && this.memory == memory
      ensures this.executionTime == executionTime && this.priority == priority
      ensures status == Queued && assignedTo == None && startTime == Unset && retryCount == 0
    {
      this.id := id;
      this.cpu := cpu;
      this.memory := memory;
      this.executionTime := executionTime;
      this.priority := priority;
      status := Queued;
      assignedTo := None;
      startTime := Unset;
      retryCount := 0;
    }

    method SetStatus(s: TaskStatus)
      modifies this
      ensures status == s
      ensures assignedTo == old(assignedTo) && startTime == old(startTime) && retryCount == old(retryCount)
    {
      status := s;
    }

    method SetAssignedTo(w: Option<WorkerId>)
      modifies this
      ensures assignedTo == w
      ensures status == old(status) && startTime == old(startTime) && retryCount == old(retryCount)
    {
      assignedTo := w;
    }

    method SetStartTime(t: int)
      modifies this
      ensures startTime == t
      ensures status == old(status) && assignedTo == old(assignedTo) && retryCount == old(retryCount)
    {
      startTime := t;
    }

    method IncrementRetryCount()
      modifies this
      ensures retryCount == old(retryCount) + 1
      ensures status == old(status) && assignedTo == old(assignedTo) && startTime == old(startTime)
    {
      retryCount := retryCount + 1;
    }

    /** Back to the queue after a failure or timeout; the retry history is kept. */
    method ResetForReassignment()
      modifies this
      ensures status == Queued && assignedTo == None && startTime == Unset
      ensures retryCount == old(retryCount)
    {
      status := Queued;
      assignedTo := None;
      startTime := Unset;
    }

    /** Only a started, assigned task can be complete, and reaching the estimate exactly counts. */
    predicate IsExecutionComplete(now: int)
      reads this
    {
      if startTime < 0 || status != Assigned then false else now - startTime >= executionTime
    }
  }

  /** What the constructor rejects, checked in the constructor's order; None when all are valid. */
  function TaskArgumentError(id: Option<TaskId>, cpu: int, memory: int, executionTime: int): (r: Option<Error>)
    ensures r.None? <==> id.Some? && cpu > 0 && memory > 0 && executionTime > 0
    ensures id.None? ==> r == Some(NullArgument("taskId"))
    ensures id.Some? && cpu <= 0 ==> r == Some(InvalidArgument("cpu"))
    ensures id.Some? && cpu > 0 && memory <= 0 ==> r == Some(InvalidArgument("memory"))
    ensures id.Some? && cpu > 0 && memory > 0 && executionTime <= 0 ==> r == Some(InvalidArgument("executionTime"))
  {
    var amounts := [("cpu", cpu), ("memory", memory), ("executionTime", executionTime)];
    assert amounts[0].1 == cpu && amounts[1].1 == memory && amounts[2].1 == executionTime;
    ArgumentError("taskId", id.Some?, amounts)
  }

  /** The validating constructor: a missing priority defaults to MEDIUM. */
  method NewTask(id: Option<TaskId>, cpu: int, memory: int, executionTime: int, priority: Option<Priority>)
    returns (r: Result<Task>)
    ensures r.Err? <==> TaskArgumentError(id, cpu, memory, executionTime).Some?
    ensures r.Err? ==> r.error == TaskArgumentError(id, cpu, memory, executionTime).value
    ensures r.Ok? ==> fresh(r.value)
    ensures r.Ok? ==> r.value.id == id.value && r.value.cpu == cpu && r.value.memory == memory
                      && r.value.executionTime == executionTime
    ensures r.Ok? ==> r.value.priority == (if priority.Some? then priority.value else Medium)
    ensures r.Ok? ==> r.value.status == Queued && r.value.assignedTo == None
                      && r.value.startTime == Unset && r.value.retryCount == 0
  {
    var e := TaskArgumentError(id, cpu, memory, executionTime);
    if e.Some? {
      return Err(e.value);
    }
    var t := new Task(id.value, cpu, memory, executionTime, if priority.Some? then priority.value else Medium);
    return Ok(t);
  }

  /** Once complete, a task stays complete as the clock advances. */
  lemma CompletionIsMonotone(t: Task, now: int, later: int)
    requires now <= later && t.IsExecutionComplete(now)
    ensures t.IsExecutionComplete(later)
  {
  }

  /** A started, assigned task becomes complete exactly when its estimate has elapsed: at
      start + executionTime, and not one unit earlier. */
  lemma CompletionBoundary(t: Task)
    requires t.status == Assigned && t.startTime >= 0
    ensures t.IsExecutionComplete(t.startTime + t.executionTime)
    ensures !t.IsExecutionComplete(t.startTime + t.executionTime - 1)
  {
  }
}
