/**
  A value-level snapshot of the whole scheduler: the registered tasks and their mutable
  fields, the registered workers and their ledgers, and the queue tiers. The consistency
  invariants of the scheduler and every state change the service performs are stated here
  on snapshots, so that their proofs are about values.
 */
module SystemModel {
  import opened Types
  import opened TaskModel
  import opened WorkerModel
  import opened TaskQueues

  /** The mutable fields of a task. */
  datatype TaskInfo = TaskInfo(status: TaskStatus, assignedTo: Option<WorkerId>, startTime: int, retryCount: nat)

  function InfoOf(t: Task): TaskInfo
    reads t
  {
    TaskInfo(t.status, t.assignedTo, t.startTime, t.retryCount)
  }

  datatype System = System(tasks: map<TaskId, Task>, info: map<TaskId, TaskInfo>,
                           workers: map<WorkerId, WorkerNode>, ledgers: map<WorkerId, Ledger>,
                           queue: Tiers)

  ghost predicate Registered(s: System, t: Task) {
    t.id in s.tasks && s.tasks[t.id] == t
  }

  /** Both registries file entries under their own ids, and every entry has its mutable part. */
  ghost predicate WellKeyed(s: System) {
    && s.info.Keys == s.tasks.Keys
    && s.ledgers.Keys == s.workers.Keys
    && (forall k :: k in s.tasks ==> s.tasks[k].id == k)
    && (forall k :: k in s.workers ==> s.workers[k].id == k)
  }

  /** A worker's usage is within capacity and equals its running tasks' demand. */
  ghost predicate Sound(l: Ledger) {
    l.Bounded() && l.Balanced()
  }

  /** (a) for every worker. */
  ghost predicate LedgersSound(s: System) {
    forall k {:trigger Sound(s.ledgers[k])} :: k in s.ledgers ==> Sound(s.ledgers[k])
  }

  /** What a queued task must be: registered and not detached. */
  ghost predicate Waiting(s: System, x: Task, D: set<TaskId>) {
    Registered(s, x) && x.id !in D
  }

  ghost predicate QueueSound(s: System, D: set<TaskId>) {
    && s.queue.WellFormed()
    && forall x {:trigger Waiting(s, x, D)} :: x in s.queue.Order() ==> Waiting(s, x, D)
  }

  /** A task running on worker k is registered, not detached, ASSIGNED, and assigned to k. */
  ghost predicate Hosts(s: System, k: WorkerId, x: Task, D: set<TaskId>) {
    && Registered(s, x) && x.id !in D && x.id in s.info
    && s.info[x.id].status == Assigned && s.info[x.id].assignedTo == Some(k)
  }

  ghost predicate RunningSound(s: System, D: set<TaskId>) {
    forall k, j {:trigger Hosts(s, k, s.ledgers[k].running[j], D)} ::
      k in s.ledgers && j in s.ledgers[k].running ==> Hosts(s, k, s.ledgers[k].running[j], D)
  }

  /** (c) The task sits in the running set of the active worker its assignment names. */
  ghost predicate RunsOn(s: System, id: TaskId)
    requires id in s.info && id in s.tasks
  {
    var a := s.info[id].assignedTo;
    && a.Some? && a.value in s.ledgers
    && s.ledgers[a.value].status == Active
    && id in s.ledgers[a.value].running && s.ledgers[a.value].running[id] == s.tasks[id]
  }

  /** (b) and (c) for one registered task. */
  ghost predicate Consistent(s: System, id: TaskId)
    requires id in s.info && id in s.tasks
  {
    && (s.info[id].status == Queued <==> s.tasks[id] in s.queue.Order())
    && (s.info[id].status == Assigned ==> RunsOn(s, id))
  }

  /** All invariants hold, except that the detached tasks in D are registered but neither queued
      nor running anywhere, whatever their fields say. */
  ghost predicate ValidExcept(s: System, D: set<TaskId>) {
    && WellKeyed(s)
    && LedgersSound(s)
    && QueueSound(s, D)
    && RunningSound(s, D)
    && D <= s.tasks.Keys
    && forall id {:trigger Consistent(s, id)} :: id in s.tasks && id !in D ==> Consistent(s, id)
  }

  ghost predicate Valid(s: System) {
    ValidExcept(s, {})
  }

  /** Some registered worker can take the task. */
  ghost predicate HasCandidate(s: System, t: Task) {
    exists k :: k in s.ledgers && s.ledgers[k].CanAccommodate(t.cpu, t.memory)
  }

  /** Worker k can take t, and no worker that can take t is faster. */
  ghost predicate Fastest(s: System, t: Task, k: WorkerId) {
    && k in s.ledgers && k in s.workers && s.ledgers[k].CanAccommodate(t.cpu, t.memory)
    && forall k' :: k' in s.ledgers && k' in s.workers && s.ledgers[k'].CanAccommodate(t.cpu, t.memory) ==>
         s.workers[k'].speed <= s.workers[k].speed
  }

  // ---------------------------------------------------------------- transitions

  /** Registering a task under a new id. */
  function AddTask(s: System, t: Task, i: TaskInfo): System {
    s.(tasks := s.tasks[t.id := t], info := s.info[t.id := i])
  }

  /** Registering a new, idle worker. */
  function AddWorker(s: System, w: WorkerNode, l: Ledger): System {
    s.(workers := s.workers[w.id := w], ledgers := s.ledgers[w.id := l])
  }

  /** Taking the head of the queue off. */
  function Pop(s: System): System {
    s.(queue := s.queue.Dequeue().1)
  }

  /** Assigning t to worker k at time now: allocate; on success mark ASSIGNED to k, started at
      now, and drop any queue entry. */
  function Assign(s: System, t: Task, k: WorkerId, now: int): System
    requires t.id in s.info && k in s.ledgers
  {
    var (l, ok) := s.ledgers[k].Allocate(t);
    if !ok then s
    else
      s.(ledgers := s.ledgers[k := l],
         info := s.info[t.id := s.info[t.id].(status := Assigned, assignedTo := Some(k), startTime := now)],
         queue := s.queue.Remove(t).0)
  }

  /** Marking t QUEUED and appending it to its tier. */
  function Requeue(s: System, t: Task): System
    requires t.id in s.info
  {
    s.(info := s.info[t.id := s.info[t.id].(status := Queued)], queue := s.queue.Enqueue(t))
  }

  /** Marking t COMPLETED and releasing it from worker k. */
  function Complete(s: System, t: Task, k: WorkerId): System
    requires t.id in s.info && k in s.ledgers
  {
    s.(info := s.info[t.id := s.info[t.id].(status := Completed)],
       ledgers := s.ledgers[k := s.ledgers[k].Release(t)])
  }

  /** The reset-and-retry a task gets when it must be placed again. */
  function Retried(i: TaskInfo): TaskInfo {
    TaskInfo(Queued, None, Unset, i.retryCount + 1)
  }

  /** Resetting t for reassignment and counting a retry. */
  function Retry(s: System, t: Task): System
    requires t.id in s.info
  {
    s.(info := s.info[t.id := Retried(s.info[t.id])])
  }

  /** Worker k goes inactive and drops everything it runs. */
  function FailWorker(s: System, k: WorkerId): System
    requires k in s.ledgers
  {
    s.(ledgers := s.ledgers[k := s.ledgers[k].(status := Inactive).ReleaseAll()])
  }

  /** Timing out t on worker k: release, reset, count a retry, enqueue. */
  function Timeout(s: System, t: Task, k: WorkerId): System
    requires t.id in s.info && k in s.ledgers
  {
    s.(ledgers := s.ledgers[k := s.ledgers[k].Release(t)],
       info := s.info[t.id := Retried(s.info[t.id])],
       queue := s.queue.Enqueue(t))
  }

  /** Cancelling a queued task: out of the queue, CANCELLED. */
  function CancelQueued(s: System, t: Task): System
    requires t.id in s.info
  {
    s.(queue := s.queue.Remove(t).0, info := s.info[t.id := s.info[t.id].(status := Cancelled)])
  }

  /** Cancelling an assigned task: released from worker k, CANCELLED, unassigned; the start
      time is kept. */
  function CancelAssigned(s: System, t: Task, k: WorkerId): System
    requires t.id in s.info && k in s.ledgers
  {
    s.(ledgers := s.ledgers[k := s.ledgers[k].Release(t)],
       info := s.info[t.id := s.info[t.id].(status := Cancelled, assignedTo := None)])
  }

  /** Every worker of s' is a worker of s, set up as before and no emptier. */
  ghost predicate NoEmptier(s: System, s': System) {
    s'.ledgers.Keys == s.ledgers.Keys && forall w :: w in s.ledgers ==> Fuller(s.ledgers[w], s'.ledgers[w])
  }

  /** A task that no worker can take still fits nowhere once the workers are no emptier. */
  lemma NoCandidateStays(s: System, s': System, t: Task)
    requires NoEmptier(s, s') && !HasCandidate(s, t)
    ensures !HasCandidate(s', t)
  {
    forall k | k in s'.ledgers ensures !s'.ledgers[k].CanAccommodate(t.cpu, t.memory) {
      assert !s.ledgers[k].CanAccommodate(t.cpu, t.memory);
    }
  }

  // ---------------------------------------------------------------- entries of a valid state

  /** What RunningSound says about the entry filed under id j on worker k. */
  lemma RunningEntry(s: System, D: set<TaskId>, k: WorkerId, j: TaskId)
    requires ValidExcept(s, D) && k in s.ledgers && j in s.ledgers[k].running
    ensures j in s.tasks && s.tasks[j] == s.ledgers[k].running[j] && j !in D && j in s.info
    ensures s.info[j].status == Assigned && s.info[j].assignedTo == Some(k)
  {
    assert Hosts(s, k, s.ledgers[k].running[j], D);
    assert Sound(s.ledgers[k]);
  }

  /** A task runs on one worker at most. */
  lemma RunsOnOne(s: System, D: set<TaskId>, k: WorkerId, k': WorkerId, j: TaskId)
    requires ValidExcept(s, D) && k in s.ledgers && k' in s.ledgers
    requires j in s.ledgers[k].running && j in s.ledgers[k'].running
    ensures k == k'
  {
    RunningEntry(s, D, k, j);
    RunningEntry(s, D, k', j);
  }

  /** The one worker a running task runs on. */
  lemma RunsOnlyOn(s: System, D: set<TaskId>, k: WorkerId, j: TaskId)
    requires ValidExcept(s, D) && k in s.ledgers && j in s.ledgers[k].running
    ensures forall k' :: k' in s.ledgers && j in s.ledgers[k'].running ==> k' == k
  {
    forall k' | k' in s.ledgers && j in s.ledgers[k'].running ensures k' == k {
      RunsOnOne(s, D, k, k', j);
    }
  }

  /** A queued task is registered, not detached, and QUEUED. */
  lemma QueuedEntry(s: System, D: set<TaskId>, x: Task)
    requires ValidExcept(s, D) && x in s.queue.Order()
    ensures Registered(s, x) && x.id !in D && x.id in s.info && s.info[x.id].status == Queued
  {
    assert Waiting(s, x, D);
    assert Consistent(s, x.id);
  }

  /** A detached task's id is neither queued nor running anywhere. */
  lemma DetachedIsNowhere(s: System, D: set<TaskId>, id: TaskId)
    requires ValidExcept(s, D) && id in D
    ensures !HasId(s.queue.Order(), id)
    ensures forall x :: x in s.queue.Order() ==> x.id != id
    ensures forall k :: k in s.ledgers ==> id !in s.ledgers[k].running
  {
    var o := s.queue.Order();
    forall i | 0 <= i < |o| ensures o[i].id != id {
      assert Waiting(s, o[i], D);
    }
    forall k | k in s.ledgers ensures id !in s.ledgers[k].running {
      if id in s.ledgers[k].running {
        RunningEntry(s, D, k, id);
      }
    }
  }

  /** Installing a bounded, balanced ledger keeps every ledger sound. */
  lemma LedgerInstalled(s: System, k: WorkerId, l: Ledger)
    requires LedgersSound(s) && l.Bounded() && l.Balanced()
    ensures LedgersSound(s.(ledgers := s.ledgers[k := l]))
  {
  }

  /** The empty scheduler is valid. */
  lemma EmptyIsValid()
    ensures Valid(System(map[], map[], map[], map[], EmptyTiers))
  {
    assert EmptyTiers.Order() == [];
  }

  // ---------------------------------------------------------------- registering

  /** Registering a task under a new id detaches it until it is queued or assigned. */
  lemma AddTaskDetaches(s: System, t: Task, i: TaskInfo, D: set<TaskId>)
    requires ValidExcept(s, D) && t.id !in s.tasks
    ensures ValidExcept(AddTask(s, t, i), D + {t.id})
  {
    var s' := AddTask(s, t, i);
    var D' := D + {t.id};
    forall x | x in s'.queue.Order() ensures Waiting(s', x, D') {
      QueuedEntry(s, D, x);
    }
    forall k, j | k in s'.ledgers && j in s'.ledgers[k].running
      ensures Hosts(s', k, s'.ledgers[k].running[j], D')
    {
      RunningEntry(s, D, k, j);
    }
    forall id | id in s'.tasks && id !in D' ensures Consistent(s', id) {
      assert Consistent(s, id);
    }
  }

  /** Registering a new, idle worker keeps everything valid. */
  lemma AddWorkerKeeps(s: System, w: WorkerNode, l: Ledger, D: set<TaskId>)
    requires ValidExcept(s, D) && w.id !in s.workers
    requires l.running == map[] && l.Bounded() && l.Balanced()
    ensures ValidExcept(AddWorker(s, w, l), D)
  {
    var s' := AddWorker(s, w, l);
    LedgerInstalled(s, w.id, l);
    forall x | x in s'.queue.Order() ensures Waiting(s', x, D) {
      QueuedEntry(s, D, x);
    }
    forall k, j | k in s'.ledgers && j in s'.ledgers[k].running
      ensures Hosts(s', k, s'.ledgers[k].running[j], D)
    {
      RunningEntry(s, D, k, j);
    }
    forall id | id in s'.tasks && id !in D ensures Consistent(s', id) {
      assert Consistent(s, id);
    }
  }

  // ---------------------------------------------------------------- the queue

  /** Popping the head of the queue detaches it. */
  lemma PopDetaches(s: System, D: set<TaskId>)
    requires ValidExcept(s, D) && s.queue.Order() != []
    ensures var x := s.queue.Order()[0];
      && Registered(s, x) && x.id !in D && s.info[x.id].status == Queued
      && ValidExcept(Pop(s), D + {x.id})
  {
    var o := s.queue.Order();
    var x := o[0];
    var s' := Pop(s);
    var D' := D + {x.id};
    QueuedEntry(s, D, x);
    DequeueWellFormed(s.queue);
    assert s'.queue.Order() == o[1..];
    forall y | y in s'.queue.Order() ensures Waiting(s', y, D') {
      var i :| 0 <= i < |o[1..]| && o[1..][i] == y;
      assert o[i + 1] == y;
      QueuedEntry(s, D, y);
    }
    forall k, j | k in s'.ledgers && j in s'.ledgers[k].running
      ensures Hosts(s', k, s'.ledgers[k].running[j], D')
    {
      RunningEntry(s, D, k, j);
    }
    forall id | id in s'.tasks && id !in D' ensures Consistent(s', id) {
      assert Consistent(s, id);
      assert s.tasks[id] != x;
      assert o == [x] + o[1..];
    }
  }

  /** Queueing a detached task re-attaches it, QUEUED at the tail of its tier. */
  lemma RequeueAttaches(s: System, t: Task, D: set<TaskId>)
    requires ValidExcept(s, D) && Registered(s, t) && t.id in D
    ensures ValidExcept(Requeue(s, t), D - {t.id})
  {
    DetachedIsNowhere(s, D, t.id);
    RequeueQueue(s, t, D);
    RequeueRest(s, t, D);
    var s' := Requeue(s, t);
    assert WellKeyed(s');
    assert LedgersSound(s');
    assert QueueSound(s', D - {t.id});
    assert RunningSound(s', D - {t.id});
  }

  lemma RequeueQueue(s: System, t: Task, D: set<TaskId>)
    requires ValidExcept(s, D) && Registered(s, t) && t.id in D
    requires !HasId(s.queue.Order(), t.id)
    ensures QueueSound(Requeue(s, t), D - {t.id})
    ensures forall x :: x in Requeue(s, t).queue.Order() <==> x in s.queue.Order() || x == t
  {
    var s' := Requeue(s, t);
    EnqueueWellFormed(s.queue, t);
    assert forall x :: x in s'.queue.Order() <==> x in s.queue.Order() || x == t by {
      assert forall x :: x in s'.queue.Order() <==> x in multiset(s'.queue.Order());
      assert forall x :: x in s.queue.Order() <==> x in multiset(s.queue.Order());
    }
    forall x | x in s'.queue.Order() ensures Waiting(s', x, D - {t.id}) {
      if x != t {
        QueuedEntry(s, D, x);
      }
    }
  }

  lemma RequeueRest(s: System, t: Task, D: set<TaskId>)
    requires ValidExcept(s, D) && Registered(s, t) && t.id in D
    requires forall x :: x in Requeue(s, t).queue.Order() <==> x in s.queue.Order() || x == t
    ensures RunningSound(Requeue(s, t), D - {t.id})
    ensures forall id :: id in s.tasks && id !in D - {t.id} ==> Consistent(Requeue(s, t), id)
  {
    var s' := Requeue(s, t);
    var D' := D - {t.id};
    forall k, j | k in s'.ledgers && j in s'.ledgers[k].running
      ensures Hosts(s', k, s'.ledgers[k].running[j], D')
    {
      RunningEntry(s, D, k, j);
    }
    forall id | id in s'.tasks && id !in D' ensures Consistent(s', id) {
      if id != t.id {
        assert Consistent(s, id);
        assert s.tasks[id] != t;
      }
    }
  }

  /** Taking a queued task out of the queue detaches it. */
  lemma RemoveQueuedDetaches(s: System, t: Task, D: set<TaskId>)
    requires ValidExcept(s, D) && t in s.queue.Order()
    ensures Registered(s, t) && t.id !in D && s.info[t.id].status == Queued
    ensures ValidExcept(s.(queue := s.queue.Remove(t).0), D + {t.id})
  {
    var s' := s.(queue := s.queue.Remove(t).0);
    var D' := D + {t.id};
    QueuedEntry(s, D, t);
    RemoveEffect(s.queue, t);
    forall x | x in s'.queue.Order() ensures Waiting(s', x, D') {
      QueuedEntry(s, D, x);
      assert x.id != t.id by {
        if x.id == t.id {
          SameIdSameTask(s.queue.Order(), x, t);
        }
      }
    }
    forall k, j | k in s'.ledgers && j in s'.ledgers[k].running
      ensures Hosts(s', k, s'.ledgers[k].running[j], D')
    {
      RunningEntry(s, D, k, j);
    }
    forall id | id in s'.tasks && id !in D' ensures Consistent(s', id) {
      assert Consistent(s, id);
      assert s.tasks[id] != t;
    }
  }

  // ---------------------------------------------------------------- assignment and release

  /** Assigning a detached task to a worker that can take it re-attaches it, ASSIGNED to that
      worker from now on. */
  lemma AssignAttaches(s: System, t: Task, k: WorkerId, now: int, D: set<TaskId>)
    requires ValidExcept(s, D) && Registered(s, t) && t.id in D
    requires k in s.ledgers && s.ledgers[k].CanAccommodate(t.cpu, t.memory)
    ensures s.ledgers[k].Allocate(t).1
    ensures ValidExcept(Assign(s, t, k, now), D - {t.id})
    ensures Assign(s, t, k, now).info[t.id] == s.info[t.id].(status := Assigned, assignedTo := Some(k), startTime := now)
  {
    DetachedIsNowhere(s, D, t.id);
    RemoveEffect(s.queue, t);
    assert Assign(s, t, k, now).queue == s.queue;
    assert Sound(s.ledgers[k]);
    AllocateKeepsBounds(s.ledgers[k], t);
    AllocateKeepsBalance(s.ledgers[k], t);
    LedgerInstalled(s, k, s.ledgers[k].Allocate(t).0);
    AssignRunning(s, t, k, now, D);
    AssignConsistent(s, t, k, now, D);
    var s' := Assign(s, t, k, now);
    forall x | x in s'.queue.Order() ensures Waiting(s', x, D - {t.id}) {
      assert Waiting(s, x, D);
    }
    assert WellKeyed(s');
    assert LedgersSound(s');
    assert QueueSound(s', D - {t.id});
    assert RunningSound(s', D - {t.id});
  }

  lemma AssignRunning(s: System, t: Task, k: WorkerId, now: int, D: set<TaskId>)
    requires ValidExcept(s, D) && Registered(s, t) && t.id in D
    requires k in s.ledgers && s.ledgers[k].CanAccommodate(t.cpu, t.memory)
    requires forall k' :: k' in s.ledgers ==> t.id !in s.ledgers[k'].running
    ensures RunningSound(Assign(s, t, k, now), D - {t.id})
  {
    var s' := Assign(s, t, k, now);
    forall k', j | k' in s'.ledgers && j in s'.ledgers[k'].running
      ensures Hosts(s', k', s'.ledgers[k'].running[j], D - {t.id})
    {
      if k' != k || j != t.id {
        RunningEntry(s, D, k', j);
      }
    }
  }

  lemma AssignConsistent(s: System, t: Task, k: WorkerId, now: int, D: set<TaskId>)
    requires ValidExcept(s, D) && Registered(s, t) && t.id in D
    requires k in s.ledgers && s.ledgers[k].CanAccommodate(t.cpu, t.memory)
    requires forall x :: x in s.queue.Order() ==> x.id != t.id
    requires Assign(s, t, k, now).queue == s.queue
    ensures forall id :: id in s.tasks && id !in D - {t.id} ==> Consistent(Assign(s, t, k, now), id)
  {
    var s' := Assign(s, t, k, now);
    forall id | id in s'.tasks && id !in D - {t.id} ensures Consistent(s', id) {
      if id != t.id {
        assert Consistent(s, id);
      }
    }
  }

  /** Releasing a running task from its worker detaches it. */
  lemma ReleaseDetaches(s: System, t: Task, k: WorkerId, D: set<TaskId>)
    requires ValidExcept(s, D) && k in s.ledgers && t.id in s.ledgers[k].running
    requires s.ledgers[k].running[t.id] == t
    ensures Registered(s, t) && t.id !in D && s.info[t.id].status == Assigned && s.info[t.id].assignedTo == Some(k)
    ensures ValidExcept(s.(ledgers := s.ledgers[k := s.ledgers[k].Release(t)]), D + {t.id})
  {
    RunningEntry(s, D, k, t.id);
    assert Sound(s.ledgers[k]);
    ReleaseKeepsBalance(s.ledgers[k], t);
    LedgerInstalled(s, k, s.ledgers[k].Release(t));
    ReleaseDetachesQueue(s, t, k, D);
    ReleaseDetachesRunning(s, t, k, D);
    ReleaseDetachesOthers(s, t, k, D);
    var s' := s.(ledgers := s.ledgers[k := s.ledgers[k].Release(t)]);
    assert WellKeyed(s');
    assert LedgersSound(s');
    assert QueueSound(s', D + {t.id});
    assert RunningSound(s', D + {t.id});
    assert D + {t.id} <= s'.tasks.Keys;
  }

  lemma ReleaseDetachesQueue(s: System, t: Task, k: WorkerId, D: set<TaskId>)
    requires ValidExcept(s, D) && k in s.ledgers && t.id in s.ledgers[k].running
    requires s.ledgers[k].running[t.id] == t
    ensures QueueSound(s.(ledgers := s.ledgers[k := s.ledgers[k].Release(t)]), D + {t.id})
  {
    var s' := s.(ledgers := s.ledgers[k := s.ledgers[k].Release(t)]);
    RunningEntry(s, D, k, t.id);
    forall x | x in s'.queue.Order() ensures Waiting(s', x, D + {t.id}) {
      QueuedEntry(s, D, x);
    }
  }

  lemma ReleaseDetachesRunning(s: System, t: Task, k: WorkerId, D: set<TaskId>)
    requires ValidExcept(s, D) && k in s.ledgers && t.id in s.ledgers[k].running
    requires s.ledgers[k].running[t.id] == t
    ensures RunningSound(s.(ledgers := s.ledgers[k := s.ledgers[k].Release(t)]), D + {t.id})
  {
    var s' := s.(ledgers := s.ledgers[k := s.ledgers[k].Release(t)]);
    forall k', j | k' in s'.ledgers && j in s'.ledgers[k'].running
      ensures Hosts(s', k', s'.ledgers[k'].running[j], D + {t.id})
    {
      RunningEntry(s, D, k', j);
      if k' != k && j == t.id {
        RunsOnOne(s, D, k, k', j);
      }
    }
  }

  lemma ReleaseDetachesOthers(s: System, t: Task, k: WorkerId, D: set<TaskId>)
    requires ValidExcept(s, D) && k in s.ledgers && t.id in s.ledgers[k].running
    requires s.ledgers[k].running[t.id] == t
    ensures var s' := s.(ledgers := s.ledgers[k := s.ledgers[k].Release(t)]);
      forall id :: id in s'.tasks && id !in D + {t.id} ==> Consistent(s', id)
  {
    var s' := s.(ledgers := s.ledgers[k := s.ledgers[k].Release(t)]);
    forall id | id in s'.tasks && id !in D + {t.id} ensures Consistent(s', id) {
      assert Consistent(s, id);
    }
  }

  /** A failed worker goes inactive and empty, detaching every task that ran on it. */
  lemma FailWorkerDetaches(s: System, k: WorkerId, D: set<TaskId>)
    requires ValidExcept(s, D) && k in s.ledgers
    ensures s.ledgers[k].running.Keys !! D
    ensures ValidExcept(FailWorker(s, k), D + s.ledgers[k].running.Keys)
  {
    var l := s.ledgers[k];
    var R := l.running.Keys;
    forall j | j in R ensures j !in D {
      RunningEntry(s, D, k, j);
    }
    assert Sound(l);
    ReleaseAllEmpties(l.(status := Inactive));
    LedgerInstalled(s, k, l.(status := Inactive).ReleaseAll());
    FailWorkerQueue(s, k, D);
    FailWorkerRunning(s, k, D);
    FailWorkerOthers(s, k, D);
    var s' := FailWorker(s, k);
    assert WellKeyed(s');
    assert LedgersSound(s');
    assert QueueSound(s', D + R);
    assert RunningSound(s', D + R);
    assert D + R <= s'.tasks.Keys by {
      forall j | j in R ensures j in s.tasks {
        RunningEntry(s, D, k, j);
      }
    }
  }

  lemma FailWorkerQueue(s: System, k: WorkerId, D: set<TaskId>)
    requires ValidExcept(s, D) && k in s.ledgers
    ensures QueueSound(FailWorker(s, k), D + s.ledgers[k].running.Keys)
  {
    var s' := FailWorker(s, k);
    forall x | x in s'.queue.Order() ensures Waiting(s', x, D + s.ledgers[k].running.Keys) {
      QueuedEntry(s, D, x);
      if x.id in s.ledgers[k].running {
        RunningEntry(s, D, k, x.id);
      }
    }
  }

  lemma FailWorkerRunning(s: System, k: WorkerId, D: set<TaskId>)
    requires ValidExcept(s, D) && k in s.ledgers
    ensures RunningSound(FailWorker(s, k), D + s.ledgers[k].running.Keys)
  {
    var s' := FailWorker(s, k);
    forall k', j | k' in s'.ledgers && j in s'.ledgers[k'].running
      ensures Hosts(s', k', s'.ledgers[k'].running[j], D + s.ledgers[k].running.Keys)
    {
      RunningEntry(s, D, k', j);
      if j in s.ledgers[k].running {
        RunsOnOne(s, D, k, k', j);
      }
    }
  }

  lemma FailWorkerOthers(s: System, k: WorkerId, D: set<TaskId>)
    requires ValidExcept(s, D) && k in s.ledgers
    ensures forall id :: id in s.tasks && id !in D + s.ledgers[k].running.Keys ==> Consistent(FailWorker(s, k), id)
  {
    var s' := FailWorker(s, k);
    forall id | id in s'.tasks && id !in D + s.ledgers[k].running.Keys ensures Consistent(s', id) {
      assert Consistent(s, id);
    }
  }

  // ---------------------------------------------------------------- detached tasks

  /** Changing the fields of a detached task keeps everything else valid. */
  lemma SetDetachedInfo(s: System, t: Task, i: TaskInfo, D: set<TaskId>)
    requires ValidExcept(s, D) && t.id in D
    ensures ValidExcept(s.(info := s.info[t.id := i]), D)
  {
    var s' := s.(info := s.info[t.id := i]);
    DetachedIsNowhere(s, D, t.id);
    forall x | x in s'.queue.Order() ensures Waiting(s', x, D) {
      QueuedEntry(s, D, x);
    }
    forall k, j | k in s'.ledgers && j in s'.ledgers[k].running
      ensures Hosts(s', k, s'.ledgers[k].running[j], D)
    {
      RunningEntry(s, D, k, j);
    }
    forall id | id in s'.tasks && id !in D ensures Consistent(s', id) {
      assert Consistent(s, id);
    }
  }

  /** A detached task that settles in a status other than QUEUED or ASSIGNED is re-attached. */
  lemma SettleAttaches(s: System, t: Task, i: TaskInfo, D: set<TaskId>)
    requires ValidExcept(s, D) && Registered(s, t) && t.id in D
    requires i.status != Queued && i.status != Assigned
    ensures ValidExcept(s.(info := s.info[t.id := i]), D - {t.id})
  {
    var s' := s.(info := s.info[t.id := i]);
    var D' := D - {t.id};
    DetachedIsNowhere(s, D, t.id);
    forall x | x in s'.queue.Order() ensures Waiting(s', x, D') {
      QueuedEntry(s, D, x);
    }
    forall k, j | k in s'.ledgers && j in s'.ledgers[k].running
      ensures Hosts(s', k, s'.ledgers[k].running[j], D')
    {
      RunningEntry(s, D, k, j);
    }
    forall id | id in s'.tasks && id !in D' ensures Consistent(s', id) {
      if id != t.id {
        assert Consistent(s, id);
      }
    }
  }

  // ---------------------------------------------------------------- whole operations

  /** Completing a running task keeps the scheduler valid; the task ends COMPLETED and still
      names its worker and start time. */
  lemma CompleteKeepsValid(s: System, t: Task, k: WorkerId)
    requires Valid(s) && k in s.ledgers && t.id in s.ledgers[k].running && s.ledgers[k].running[t.id] == t
    ensures t.id in s.info && Valid(Complete(s, t, k))
    ensures Complete(s, t, k).info[t.id] == s.info[t.id].(status := Completed)
    ensures s.info[t.id].assignedTo == Some(k)
  {
    var D := {t.id};
    assert {} + {t.id} == D && D - {t.id} == {};
    ReleaseDetaches(s, t, k, {});
    var s1 := s.(ledgers := s.ledgers[k := s.ledgers[k].Release(t)]);
    var i := s.info[t.id].(status := Completed);
    SettleAttaches(s1, t, i, D);
    assert s1.(info := s1.info[t.id := i]) == Complete(s, t, k);
  }

  /** A timed-out task goes back to the queue, reset, with one more retry, and the scheduler
      stays valid. */
  lemma TimeoutKeepsValid(s: System, t: Task, k: WorkerId)
    requires Valid(s) && k in s.ledgers && t.id in s.ledgers[k].running && s.ledgers[k].running[t.id] == t
    ensures t.id in s.info && Valid(Timeout(s, t, k))
    ensures Timeout(s, t, k).info[t.id] == TaskInfo(Queued, None, Unset, s.info[t.id].retryCount + 1)
    ensures t.id !in Timeout(s, t, k).ledgers[k].running
  {
    var D := {t.id};
    assert {} + {t.id} == D && D - {t.id} == {};
    ReleaseDetaches(s, t, k, {});
    var s1 := s.(ledgers := s.ledgers[k := s.ledgers[k].Release(t)]);
    var i := Retried(s.info[t.id]);
    SetDetachedInfo(s1, t, i, D);
    var s2 := s1.(info := s1.info[t.id := i]);
    assert Registered(s2, t);
    RequeueAttaches(s2, t, D);
    assert s2.info[t.id].(status := Queued) == i;
    assert Requeue(s2, t) == Timeout(s, t, k);
  }

  /** Cancelling a queued task takes it out of the queue and keeps the scheduler valid. */
  lemma CancelQueuedKeepsValid(s: System, t: Task)
    requires Valid(s) && t in s.queue.Order()
    ensures t.id in s.info && Valid(CancelQueued(s, t))
    ensures forall x :: x in CancelQueued(s, t).queue.Order() <==> x in s.queue.Order() && x != t
  {
    var D := {t.id};
    assert {} + {t.id} == D && D - {t.id} == {};
    RemoveQueuedDetaches(s, t, {});
    RemoveEffect(s.queue, t);
    var s1 := s.(queue := s.queue.Remove(t).0);
    var i := s.info[t.id].(status := Cancelled);
    SettleAttaches(s1, t, i, D);
    assert s1.(info := s1.info[t.id := i]) == CancelQueued(s, t);
  }

  /** Cancelling a running task releases it and keeps the scheduler valid. */
  lemma CancelAssignedKeepsValid(s: System, t: Task, k: WorkerId)
    requires Valid(s) && k in s.ledgers && t.id in s.ledgers[k].running && s.ledgers[k].running[t.id] == t
    ensures t.id in s.info && Valid(CancelAssigned(s, t, k))
    ensures t.id !in CancelAssigned(s, t, k).ledgers[k].running
  {
    var D := {t.id};
    assert {} + {t.id} == D && D - {t.id} == {};
    ReleaseDetaches(s, t, k, {});
    var s1 := s.(ledgers := s.ledgers[k := s.ledgers[k].Release(t)]);
    var i := s.info[t.id].(status := Cancelled, assignedTo := None);
    SettleAttaches(s1, t, i, D);
    assert s1.(info := s1.info[t.id := i]) == CancelAssigned(s, t, k);
  }
}
