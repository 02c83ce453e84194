/**
  The task registry: every submitted task, keyed by its id. Entries are only ever added,
  except by clearing the whole registry; tasks in terminal states stay registered.
 */
module TaskRegistries {
  import opened Types
  import opened TaskModel

  class TaskRegistry {
    var tasks: map<TaskId, Task>

    /** Every task is filed under its own id. */
    ghost predicate Valid()
      reads this
    {
      forall k :: k in tasks ==> tasks[k].id == k
    }

    constructor ()
      ensures tasks == map[] && Valid()
    {
      tasks := map[];
    }

    /** Adds the task under its id; an id that is already registered is rejected and nothing changes. */
    method Register(t: Task) returns (r: Outcome)
      requires Valid()
      modifies this
      ensures Valid()
      ensures r.Fail? <==> t.id in old(tasks)
      ensures r.Fail? ==> r.error == DuplicateEntity(t.id) && tasks == old(tasks)
      ensures r.Pass? ==> tasks == old(tasks)[t.id := t]
    {
      if t.id in tasks {
        return Fail(DuplicateEntity(t.id));
      }
      tasks := tasks[t.id := t];
      return Pass;
    }

    /** The registered task with that id, or NotFound. */
    function GetTask(id: TaskId): (r: Result<Task>)
      reads this
      ensures r.Ok? <==> id in tasks
      ensures r.Ok? ==> r.value == tasks[id] && (Valid() ==> r.value.id == id)
      ensures r.Err? ==> r.error == NotFound(id)
    {
      if id in tasks then Ok(tasks[id]) else Err(NotFound(id))
    }

    /** Exactly the registered tasks with the given status, each once, in hash-map order. */
    method GetTasksByStatus(s: TaskStatus) returns (ts: seq<Task>)
      requires Valid()
      ensures NoDup(ts)
      ensures forall t :: t in ts <==> t.id in tasks && tasks[t.id] == t && t.status == s
    {
      ts := [];
      var rest := tasks.Keys;
      while rest != {}
        invariant rest <= tasks.Keys
        invariant NoDup(ts)
        invariant forall t :: t in ts <==> t.id in tasks && tasks[t.id] == t && t.status == s && t.id !in rest
        decreases rest
      {
        var k :| k in rest;
        if tasks[k].status == s {
          ts := ts + [tasks[k]];
        }
        rest := rest - {k};
      }
    }

    /** Exactly the registered tasks assigned to the given worker, each once, in hash-map order. */
    method GetTasksByWorker(w: WorkerId) returns (ts: seq<Task>)
      requires Valid()
      ensures NoDup(ts)
      ensures forall t :: t in ts <==> t.id in tasks && tasks[t.id] == t && t.assignedTo == Some(w)
    {
      ts := [];
      var rest := tasks.Keys;
      while rest != {}
        invariant rest <= tasks.Keys
        invariant NoDup(ts)
        invariant forall t :: t in ts <==> t.id in tasks && tasks[t.id] == t && t.assignedTo == Some(w) && t.id !in rest
        decreases rest
      {
        var k :| k in rest;
        if tasks[k].assignedTo == Some(w) {
          ts := ts + [tasks[k]];
        }
        rest := rest - {k};
      }
    }

    /** The number of registered ids; zero exactly when every lookup fails. */
    function GetTaskCount(): (n: nat)
      reads this
      ensures n == |tasks.Keys|
      ensures n == 0 <==> forall id :: GetTask(id).Err?
    {
      if tasks == map[] then 0
      else
        assert GetTask(AnyKey(tasks)).Ok?;
        |tasks|
    }

    /** Whether a lookup of the id would succeed. */
    predicate ContainsTask(id: TaskId): (b: bool)
      reads this
      ensures b <==> GetTask(id).Ok?
    {
      id in tasks
    }

    method Clear()
      modifies this
      ensures tasks == map[] && Valid()
    {
      tasks := map[];
    }
  }

}
