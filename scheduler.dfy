/**
  The scheduling service: submission, assignment to the fastest worker that can take a task,
  the completion sweep, the queue drain, worker failure, timeouts, cancellation and
  auto-scaling, over a shared queue and the two registries. Every operation is proved against
  the snapshot transitions of SystemModel, and keeps the scheduler's invariants.
 */
module Scheduling {
  import opened Types
  import opened TaskModel
  import opened WorkerModel
  import opened TaskQueues
  import opened TaskRegistries
  import opened WorkerRegistries
  import opened SystemModel
  import opened SweepModel
  import opened Draining

  // ---------------------------------------------------------------- snapshots of the heap

  /** The mutable fields of every registered task. */
  ghost function Infos(m: map<TaskId, Task>): map<TaskId, TaskInfo>
    reads m.Values
  {
    map id | id in m :: InfoOf(m[id])
  }

  /** The ledger of every registered worker. */
  ghost function Ledgers(m: map<WorkerId, WorkerNode>): map<WorkerId, Ledger>
    reads m.Values
  {
    map k | k in m :: m[k].State()
  }

  /** The ids of a list of tasks. */
  ghost function Ids(ts: seq<Task>): set<TaskId> {
    set x | x in ts :: x.id
  }

  /** done lists the tasks due at now on the workers in W, each once. */
  ghost predicate Reports(s: System, now: int, W: set<WorkerId>, done: seq<Task>) {
    && NoDup(done)
    && (forall x :: x in done ==> x.id in DueOn(s, now, W) && s.tasks[x.id] == x)
    && (forall id :: id in DueOn(s, now, W) ==> s.tasks[id] in done)
  }

  /** Reports, from a membership characterisation over registered tasks filed under their ids. */
  lemma ReportsFrom(s: System, now: int, W: set<WorkerId>, done: seq<Task>)
    requires forall j :: j in s.tasks ==> s.tasks[j].id == j
    requires NoDup(done) && forall x :: x in done <==> x.id in DueOn(s, now, W) && s.tasks[x.id] == x
    ensures Reports(s, now, W, done)
  {
    forall id | id in DueOn(s, now, W) ensures s.tasks[id] in done {
      assert s.tasks[id].id == id;
    }
  }

  /** Adding the due tasks of worker k, listed in ts, to those of the workers in P gives the due
      tasks of P + {k}. */
  lemma DueIds(s: System, now: int, P: set<WorkerId>, k: WorkerId, ts: seq<Task>)
    requires forall j :: j in s.tasks ==> s.tasks[j].id == j
    requires k !in P && Reports(s, now, {k}, ts)
    ensures DueOn(s, now, P) + Ids(ts) == DueOn(s, now, P + {k})
    ensures forall x :: x in ts ==> x.id !in DueOn(s, now, P)
  {
    forall id | id in DueOn(s, now, {k}) ensures id in Ids(ts) {
      assert s.tasks[id] in ts;
    }
    DueOnUnion(s, now, P, {k});
  }

  /** The ids of the first i workers of a listing. */
  ghost function Listed(ws: seq<WorkerNode>, i: nat): set<WorkerId>
    requires i <= |ws|
  {
    set j | 0 <= j < i :: ws[j].id
  }

  /** A listing of registered workers of s: each once, under its own id. */
  ghost predicate Listing(s: System, ws: seq<WorkerNode>) {
    && NoDup(ws)
    && (forall j :: 0 <= j < |ws| ==> ws[j].id in s.workers && s.workers[ws[j].id] == ws[j])
  }

  /** A listing of the active workers of s: each once, under its own id. */
  ghost predicate ActiveListing(s: System, ws: seq<WorkerNode>) {
    && Listing(s, ws)
    && (forall k :: k in s.ledgers && s.ledgers[k].status == Active ==> k in s.workers && s.workers[k] in ws)
  }

  /** The next worker of the listing is not among those before it. */
  lemma ListedNext(s: System, ws: seq<WorkerNode>, i: nat)
    requires Listing(s, ws) && i < |ws|
    ensures ws[i].id !in Listed(ws, i) && ws[i].id in s.workers && s.workers[ws[i].id] == ws[i]
    ensures Listed(ws, i + 1) == Listed(ws, i) + {ws[i].id}
  {
    forall j | 0 <= j < i ensures ws[j].id != ws[i].id {
      assert ws[j] != ws[i];
    }
  }

  /** Once the whole listing is through, every active worker has been visited. */
  lemma ListedAll(s: System, ws: seq<WorkerNode>)
    requires WellKeyed(s) && ActiveListing(s, ws)
    ensures Listed(ws, |ws|) <= s.ledgers.Keys
    ensures forall k :: k in s.ledgers && s.ledgers[k].status == Active ==> k in Listed(ws, |ws|)
  {
    forall k | k in s.ledgers && s.ledgers[k].status == Active ensures k in Listed(ws, |ws|) {
      var j :| 0 <= j < |ws| && ws[j] == s.workers[k];
      assert ws[j].id == k;
    }
  }

  /** The due tasks of P and of one more worker k do not overlap and together are those of
      P + {k}. */
  lemma CompletedGrows(s: System, now: int, P: set<WorkerId>, k: WorkerId, a: seq<Task>, b: seq<Task>)
    requires k !in P && Reports(s, now, P, a) && Reports(s, now, {k}, b)
    ensures Reports(s, now, P + {k}, a + b)
  {
    forall x | x in a ensures x !in b {
      assert x.id in DueOn(s, now, P);
    }
    NoDupConcat(a, b);
    DueOnUnion(s, now, P, {k});
  }

  // ---------------------------------------------------------------- failing over

  /** A task that ran on a failed worker, before (i) and after (i') the failover at now: one
      more retry, and either ASSIGNED again, started at now, or QUEUED, unassigned and not
      started. */
  ghost predicate Redone(i: TaskInfo, i': TaskInfo, now: int) {
    && i'.retryCount == i.retryCount + 1
    && (|| (i'.status == Assigned && i'.startTime == now)
        || (i'.status == Queued && i'.assignedTo == None && i'.startTime == Unset))
  }

  /** xs lists, each once, exactly the tasks that ran on k in s and have status st in s'. */
  ghost predicate Lists(s: System, k: WorkerId, xs: seq<Task>, s': System, st: TaskStatus)
    requires k in s.ledgers
  {
    var R := s.ledgers[k].running;
    && NoDup(xs)
    && (forall x :: x in xs ==> x.id in R && R[x.id] == x && x.id in s'.info && s'.info[x.id].status == st)
    && (forall j :: j in R && j in s'.info && s'.info[j].status == st ==> R[j] in xs)
  }

  /** The outcome of the failure of worker k at now, seen from the state s before it: k is out
      of service and idle; every other worker keeps its status and capacity; every task that ran
      on k is redone, and is ASSIGNED again exactly when it is listed in reassigned, QUEUED
      exactly when it is listed in requeued, and then no worker can take it; the queue is the old
      one with the requeued tasks enqueued in that order; no other task changed. */
  ghost predicate FailedOver(s: System, k: WorkerId, now: int, reassigned: seq<Task>, requeued: seq<Task>, s': System)
    requires k in s.ledgers
  {
    var R := s.ledgers[k].running;
    && s'.tasks == s.tasks && s'.workers == s.workers
    && s'.info.Keys == s.info.Keys && s'.ledgers.Keys == s.ledgers.Keys
    && s'.ledgers[k] == s.ledgers[k].(status := Inactive).ReleaseAll()
    && (forall w :: w in s.ledgers && w != k ==> SameSetup(s.ledgers[w], s'.ledgers[w]))
    && (forall j :: j in R && j in s.info ==> Redone(s.info[j], s'.info[j], now))
    && Lists(s, k, reassigned, s', Assigned) && Lists(s, k, requeued, s', Queued)
    && (forall x :: x in requeued ==> !HasCandidate(s', x))
    && s'.queue == EnqueueAll(s.queue, requeued)
    && (forall j :: j in s.info && j !in R ==> s'.info[j] == s.info[j])
  }

  /** Part way through a failover: the first i affected tasks are dealt with, the rest are as
      they were; those of them placed again are listed in reassigned, those queued in requeued,
      in the order they were enqueued. */
  ghost predicate FailingOver(s: System, k: WorkerId, now: int, affected: seq<Task>, i: nat,
                              reassigned: seq<Task>, requeued: seq<Task>, s': System)
    requires k in s.ledgers && i <= |affected|
  {
    Redoing(s, k, now, affected, i, s') && Tallied(s.queue, affected, i, reassigned, requeued, s')
  }

  /** The first i affected tasks are redone, the rest are as they were, and nothing else changed
      since the failure of k. */
  ghost predicate Redoing(s: System, k: WorkerId, now: int, affected: seq<Task>, i: nat, s': System)
    requires k in s.ledgers && i <= |affected|
  {
    var R := s.ledgers[k].running;
    && s'.tasks == s.tasks && s'.workers == s.workers
    && s'.info.Keys == s.info.Keys && s'.ledgers.Keys == s.ledgers.Keys
    && s'.ledgers[k] == s.ledgers[k].(status := Inactive).ReleaseAll()
    && (forall w :: w in s.ledgers && w != k ==> SameSetup(s.ledgers[w], s'.ledgers[w]))
    && (forall j :: 0 <= j < |affected| ==> affected[j].id in s.info)
    && (forall j :: 0 <= j < i ==> Redone(s.info[affected[j].id], s'.info[affected[j].id], now))
    && (forall j :: i <= j < |affected| ==> s'.info[affected[j].id] == s.info[affected[j].id])
    && (forall j :: j in s.info && j !in R ==> s'.info[j] == s.info[j])
  }

  /** Of the first i affected tasks, those ASSIGNED in s' are listed in reassigned, those QUEUED
      in requeued, no worker can take a requeued one, and the queue is q with the requeued tasks
      enqueued in that order. */
  ghost predicate Tallied(q: Tiers, affected: seq<Task>, i: nat, reassigned: seq<Task>, requeued: seq<Task>, s': System)
    requires i <= |affected|
  {
    && Tally(affected, i, reassigned, s'.info, Assigned) && Tally(affected, i, requeued, s'.info, Queued)
    && (forall x :: x in requeued ==> !HasCandidate(s', x))
    && s'.queue == EnqueueAll(q, requeued)
  }

  /** xs lists, each once, exactly those of the first i affected tasks that info shows with
      status st. */
  ghost predicate Tally(affected: seq<Task>, i: nat, xs: seq<Task>, info: map<TaskId, TaskInfo>, st: TaskStatus)
    requires i <= |affected|
  {
    && NoDup(xs)
    && (forall x :: x in xs ==> x in affected[..i] && x.id in info && info[x.id].status == st)
    && (forall j :: 0 <= j < i && affected[j].id in info && info[affected[j].id].status == st ==>
          affected[j] in xs)
  }

  /** Settling the next affected task, whose id no other affected task has, extends the tally
      by that task exactly when it ends with status st. */
  lemma TallyStep(affected: seq<Task>, i: nat, xs: seq<Task>, info: map<TaskId, TaskInfo>,
                  info': map<TaskId, TaskInfo>, st: TaskStatus, b: bool)
    requires i < |affected| && Tally(affected, i, xs, info, st)
    requires forall j :: 0 <= j < |affected| && j != i ==> affected[j].id != affected[i].id
    requires var id := affected[i].id;
      id in info' && info' == info[id := info'[id]] && (b <==> info'[id].status == st)
    ensures Tally(affected, i + 1, if b then xs + [affected[i]] else xs, info', st)
  {
    var t := affected[i];
    assert affected[..i + 1] == affected[..i] + [t];
    if b {
      assert t !in xs;
      NoDupConcat(xs, [t]);
    }
    var r' := if b then xs + [t] else xs;
    forall x | x in r' ensures x in affected[..i + 1] && x.id in info' && info'[x.id].status == st {
      if x != t {
        assert x in xs;
      }
    }
  }

  /** The affected tasks are exactly those that ran on k, each once and under its own id. */
  ghost predicate Affected(s: System, k: WorkerId, affected: seq<Task>)
    requires k in s.ledgers
  {
    && NoDup(affected)
    && (forall x :: x in affected ==> x.id in s.ledgers[k].running && s.ledgers[k].running[x.id] == x)
    && (forall j :: j in s.ledgers[k].running ==> s.ledgers[k].running[j] in affected)
    && (forall j :: j in s.ledgers[k].running ==> s.ledgers[k].running[j].id == j)
  }

  /** The list a failing worker hands back is its running set, so its ids are the running ids. */
  lemma FailingAffects(s: System, k: WorkerId, ts: seq<Task>)
    requires Valid(s) && k in s.ledgers && NoDup(ts)
    requires forall t :: t in ts <==> t.id in s.ledgers[k].running && s.ledgers[k].running[t.id] == t
    ensures Affected(s, k, ts) && Ids(ts) == {} + s.ledgers[k].running.Keys
  {
    var R := s.ledgers[k].running;
    assert Sound(s.ledgers[k]);
    forall j | j in R ensures R[j] in ts && R[j].id == j {
      RunningEntry(s, {}, k, j);
    }
  }

  /** Two updates of one key are the last of them. */
  lemma UpdateTwice<K, V>(a: map<K, V>, b: map<K, V>, c: map<K, V>, k: K, x: V)
    requires b == a[k := x] && k in c && c == b[k := c[k]]
    ensures c == a[k := c[k]]
  {
  }

  /** Placing a task again, or queueing it when no worker can take it, touches that task's
      entry and no inactive worker, and leaves no worker emptier; the retry count stays. The
      queue, which does not hold the task, is kept when it is placed and gains it at the tail of
      its tier otherwise, when no worker can take it still. */
  lemma RetriedPlacement(i: TaskInfo, s1: System, t: Task, k: WorkerId, w: Option<WorkerId>, now: int, b: bool, s2: System)
    requires t.id in s1.info && s1.info[t.id] == Retried(i) && k in s1.ledgers && s1.ledgers[k].status == Inactive
    requires s1.queue.WellFormed() && !HasId(s1.queue.Order(), t.id)
    requires b ==> w.Some? && Fastest(s1, t, w.value) && s2 == Assign(s1, t, w.value, now)
    requires !b ==> s2 == Requeue(s1, t) && !HasCandidate(s1, t)
    ensures s2.tasks == s1.tasks && s2.workers == s1.workers && NoEmptier(s1, s2)
    ensures !b ==> !HasCandidate(s2, t)
    ensures s2.ledgers[k] == s1.ledgers[k] && t.id in s2.info && s2.info == s1.info[t.id := s2.info[t.id]]
    ensures Redone(i, s2.info[t.id], now) && (b <==> s2.info[t.id].status == Assigned)
    ensures s2.queue == if b then s1.queue else s1.queue.Enqueue(t)
  {
    if b {
      assert w.value != k;
      AllocateEffect(s1.ledgers[w.value], t);
      RemoveEffect(s1.queue, t);
    }
  }

  /** The next affected task is registered, still ASSIGNED as it was before the failure, and
      is the only one of the pending tasks with its id; its worker k is inactive. */
  lemma FailedTaskEntry(s: System, k: WorkerId, now: int, affected: seq<Task>, i: nat,
                        reassigned: seq<Task>, requeued: seq<Task>, s1: System)
    requires Valid(s) && k in s.ledgers && i < |affected| && Affected(s, k, affected)
    requires FailingOver(s, k, now, affected, i, reassigned, requeued, s1)
    ensures var t := affected[i];
      && Registered(s1, t) && t.id in Ids(affected[i..]) && t.id in s1.info
      && s1.info[t.id] == s.info[t.id] && s1.info[t.id].status == Assigned
      && s1.ledgers[k].status == Inactive
      && Ids(affected[i..]) - {t.id} == Ids(affected[i + 1..])
  {
    var t := affected[i];
    assert t in affected;
    RunningEntry(s, {}, k, t.id);
    IdsDropHead(affected, i, s.ledgers[k].running);
  }

  /** Taking one more task of a list adds its id, which no task before it shares. */
  lemma IdsGrow(due: seq<Task>, j: nat, R: map<TaskId, Task>)
    requires j < |due| && NoDup(due)
    requires forall x :: x in due ==> x.id in R && R[x.id] == x
    ensures due[j].id !in Ids(due[..j])
    ensures Ids(due[..j + 1]) == Ids(due[..j]) + {due[j].id}
  {
    var x := due[j];
    forall y | y in due[..j] ensures y.id != x.id {
      var n :| 0 <= n < j && due[n] == y;
      assert due[n] in due && due[j] in due;
    }
    assert due[..j + 1] == due[..j] + [x];
  }

  /** Dropping the head of the pending tasks drops its id, which no later task shares. */
  lemma IdsDropHead(affected: seq<Task>, i: nat, R: map<TaskId, Task>)
    requires i < |affected| && NoDup(affected)
    requires forall x :: x in affected ==> x.id in R && R[x.id] == x
    ensures affected[i].id in Ids(affected[i..])
    ensures Ids(affected[i..]) - {affected[i].id} == Ids(affected[i + 1..])
  {
    var t := affected[i];
    assert affected[i..] == [t] + affected[i + 1..];
    forall x | x in affected[i + 1..] ensures x.id != t.id {
      var n :| i + 1 <= n < |affected| && affected[n] == x;
      assert affected[i] in affected && affected[n] in affected;
    }
  }

  lemma FailingOverStart(s: System, k: WorkerId, now: int, affected: seq<Task>)
    requires Valid(s) && k in s.ledgers && Affected(s, k, affected)
    ensures FailingOver(s, k, now, affected, 0, [], [], FailWorker(s, k))
  {
    forall j | 0 <= j < |affected| ensures affected[j].id in s.info {
      assert affected[j] in affected;
      RunningEntry(s, {}, k, affected[j].id);
    }
  }

  /** Dealing with the next affected task keeps the failover on track. */
  lemma FailingOverStep(s: System, k: WorkerId, now: int, affected: seq<Task>, i: nat, reassigned: seq<Task>,
                        requeued: seq<Task>, s1: System, s2: System, b: bool)
    requires k in s.ledgers && i < |affected| && Affected(s, k, affected)
    requires FailingOver(s, k, now, affected, i, reassigned, requeued, s1)
    requires var id := affected[i].id;
      && s2.tasks == s1.tasks && s2.workers == s1.workers && NoEmptier(s1, s2)
      && s2.ledgers[k] == s1.ledgers[k] && id in s2.info
      && s2.info == s1.info[id := s2.info[id]]
      && Redone(s1.info[id], s2.info[id], now) && (b <==> s2.info[id].status == Assigned)
      && (!b ==> !HasCandidate(s2, affected[i]))
      && s2.queue == if b then s1.queue else s1.queue.Enqueue(affected[i])
    ensures FailingOver(s, k, now, affected, i + 1, if b then reassigned + [affected[i]] else reassigned,
                        if b then requeued else requeued + [affected[i]], s2)
  {
    AffectedIdsDiffer(s, k, affected, i);
    assert forall x :: x in s1.ledgers ==> SameSetup(s1.ledgers[x], s2.ledgers[x]);
    RedoingStep(s, k, now, affected, i, s1, s2);
    TalliesStep(s.queue, affected, i, reassigned, requeued, s1, s2, b);
  }

  /** No other affected task has the id of the i-th. */
  lemma AffectedIdsDiffer(s: System, k: WorkerId, affected: seq<Task>, i: nat)
    requires k in s.ledgers && i < |affected| && Affected(s, k, affected)
    ensures forall j :: 0 <= j < |affected| && j != i ==> affected[j].id != affected[i].id
  {
    forall j | 0 <= j < |affected| && j != i ensures affected[j].id != affected[i].id {
      assert affected[j] in affected && affected[i] in affected;
    }
  }

  /** Redoing the i-th affected task, and only it, redoes one more. */
  lemma RedoingStep(s: System, k: WorkerId, now: int, affected: seq<Task>, i: nat, s1: System, s2: System)
    requires k in s.ledgers && i < |affected| && Affected(s, k, affected)
    requires forall j :: 0 <= j < |affected| && j != i ==> affected[j].id != affected[i].id
    requires Redoing(s, k, now, affected, i, s1)
    requires var id := affected[i].id;
      && s2.tasks == s1.tasks && s2.workers == s1.workers && s2.ledgers.Keys == s1.ledgers.Keys
      && (forall x :: x in s1.ledgers ==> SameSetup(s1.ledgers[x], s2.ledgers[x]))
      && s2.ledgers[k] == s1.ledgers[k] && id in s2.info
      && s2.info == s1.info[id := s2.info[id]]
      && Redone(s1.info[id], s2.info[id], now)
    ensures Redoing(s, k, now, affected, i + 1, s2)
  {
    assert affected[i] in affected;
  }

  /** Dealing with the next affected task adds it to the reassigned list when it is placed, and
      to the requeued list and the tail of its tier when it is queued. */
  lemma TalliesStep(q: Tiers, affected: seq<Task>, i: nat, reassigned: seq<Task>, requeued: seq<Task>,
                    s1: System, s2: System, b: bool)
    requires i < |affected|
    requires forall j :: 0 <= j < |affected| && j != i ==> affected[j].id != affected[i].id
    requires Tallied(q, affected, i, reassigned, requeued, s1)
    requires var id := affected[i].id;
      && id in s2.info && s2.info == s1.info[id := s2.info[id]]
      && (b <==> s2.info[id].status == Assigned) && (!b <==> s2.info[id].status == Queued)
      && NoEmptier(s1, s2) && (!b ==> !HasCandidate(s2, affected[i]))
      && s2.queue == if b then s1.queue else s1.queue.Enqueue(affected[i])
    ensures Tallied(q, affected, i + 1, if b then reassigned + [affected[i]] else reassigned,
                    if b then requeued else requeued + [affected[i]], s2)
  {
    TallyStep(affected, i, reassigned, s1.info, s2.info, Assigned, b);
    TallyStep(affected, i, requeued, s1.info, s2.info, Queued, !b);
    EnqueueAllSnoc(q, requeued, affected[i]);
    forall x | x in requeued ensures !HasCandidate(s2, x) {
      NoCandidateStays(s1, s2, x);
    }
  }

  /** At the end of the list the failover is complete. */
  lemma FailingOverDone(s: System, k: WorkerId, now: int, affected: seq<Task>, reassigned: seq<Task>,
                        requeued: seq<Task>, s': System)
    requires k in s.ledgers && Affected(s, k, affected)
    requires FailingOver(s, k, now, affected, |affected|, reassigned, requeued, s')
    ensures FailedOver(s, k, now, reassigned, requeued, s')
  {
    var R := s.ledgers[k].running;
    assert affected[..|affected|] == affected;
    forall j | j in R && j in s.info ensures Redone(s.info[j], s'.info[j], now) {
      assert R[j] in affected;
      var n :| 0 <= n < |affected| && affected[n] == R[j];
    }
  }

  /** An ASSIGNED task of a valid state runs on the registered worker its assignment names. */
  lemma AssignedRuns(s: System, t: Task)
    requires Valid(s) && Registered(s, t) && s.info[t.id].status == Assigned
    ensures var a := s.info[t.id].assignedTo;
      && a.Some? && a.value in s.ledgers && a.value in s.workers && s.workers[a.value].id == a.value
      && t.id in s.ledgers[a.value].running && s.ledgers[a.value].running[t.id] == t
  {
    assert Consistent(s, t.id);
  }

  /** After a failover every reassigned task runs on an active worker other than the failed one,
      every other task that ran there waits in the queue, and each tier of the queue is the old
      tier followed by the requeued tasks of its priority. */
  lemma ReassignedElsewhere(s: System, k: WorkerId, now: int, reassigned: seq<Task>, requeued: seq<Task>, s': System)
    requires k in s.ledgers && FailedOver(s, k, now, reassigned, requeued, s') && Valid(s')
    ensures forall x :: x in reassigned ==> RunsOn(s', x.id) && s'.info[x.id].assignedTo != Some(k)
    ensures forall j :: j in s.ledgers[k].running && j in s.info && s.ledgers[k].running[j] !in reassigned ==>
              s'.info[j].status == Queued && s'.tasks[j] in s'.queue.Order()
    ensures forall p :: s'.queue.Tier(p) == s.queue.Tier(p) + OfPriority(requeued, p)
  {
    EnqueueAllTiers(s.queue, requeued);
    forall x | x in reassigned ensures RunsOn(s', x.id) && s'.info[x.id].assignedTo != Some(k) {
      assert x.id in s'.tasks && Consistent(s', x.id);
    }
    forall j | j in s.ledgers[k].running && j in s.info && s.ledgers[k].running[j] !in reassigned
      ensures s'.info[j].status == Queued && s'.tasks[j] in s'.queue.Order()
    {
      assert j in s'.tasks && Consistent(s', j);
    }
  }

  // ---------------------------------------------------------------- choosing a worker

  /** The worker is active and has room for the task. */
  predicate Eligible(w: WorkerNode, t: Task)
    reads w
  {
    w.IsActive() && w.CanAccommodate(t.cpu, t.memory)
  }

  /** The position the stream reduction picks: scanning left to right, the best so far is
      replaced only by a strictly faster eligible worker, so the first of the fastest wins. */
  function FastestIndex(t: Task, ws: seq<WorkerNode>): (r: Option<nat>)
    reads ws
    ensures r.None? <==> forall i :: 0 <= i < |ws| ==> !Eligible(ws[i], t)
    ensures r.Some? ==> r.value < |ws| && Eligible(ws[r.value], t)
    ensures r.Some? ==> forall i :: 0 <= i < |ws| && Eligible(ws[i], t) ==> ws[i].speed <= ws[r.value].speed
    ensures r.Some? ==> forall i :: 0 <= i < r.value && Eligible(ws[i], t) ==> ws[i].speed < ws[r.value].speed
    decreases |ws|
  {
    if ws == [] then None
    else
      var n := |ws| - 1;
      var best := FastestIndex(t, ws[..n]);
      if !Eligible(ws[n], t) then best
      else if best.Some? && ws[best.value].speed >= ws[n].speed then best
      else Some(n)
  }

  /** The fastest eligible worker of the listing, the earliest one on ties; none when no worker
      is eligible. */
  function FindFastestWorker(t: Task, ws: seq<WorkerNode>): (r: Option<WorkerNode>)
    reads ws
    ensures r.None? <==> forall w :: w in ws ==> !Eligible(w, t)
    ensures r.Some? ==> r.value in ws && Eligible(r.value, t)
    ensures r.Some? ==> forall w :: w in ws && Eligible(w, t) ==> w.speed <= r.value.speed
  {
    var i := FastestIndex(t, ws);
    if i.Some? then Some(ws[i.value]) else None
  }

  /** The timeout threshold: the estimate stretched by a fifth and rounded down. */
  function TimeoutThreshold(executionTime: Pos): (r: int)
    ensures 5 * r <= 6 * executionTime < 5 * r + 5
    ensures executionTime <= r
  {
    executionTime * 6 / 5
  }

  // ---------------------------------------------------------------- the service

  /** The clock reading elapsed time units after now. */
  function After(now: int, elapsed: int): int {
    now + elapsed
  }

  class SchedulerService {
    const queue: TaskQueue
    const taskRegistry: TaskRegistry
    const workerRegistry: WorkerRegistry

    /** The scheduler as a value. */
    ghost function Snap(): System
      reads queue, taskRegistry, workerRegistry, taskRegistry.tasks.Values, workerRegistry.workers.Values
    {
      System(taskRegistry.tasks, Infos(taskRegistry.tasks), workerRegistry.workers,
             Ledgers(workerRegistry.workers), queue.State())
    }

    /** Every invariant holds, except for the detached tasks in D. */
    ghost predicate ValidBut(D: set<TaskId>)
      reads queue, taskRegistry, workerRegistry, taskRegistry.tasks.Values, workerRegistry.workers.Values
    {
      taskRegistry.Valid() && workerRegistry.Valid() && ValidExcept(Snap(), D)
    }

    ghost predicate Valid()
      reads queue, taskRegistry, workerRegistry, taskRegistry.tasks.Values, workerRegistry.workers.Values
    {
      ValidBut({})
    }

    constructor (queue: TaskQueue, taskRegistry: TaskRegistry, workerRegistry: WorkerRegistry)
      ensures this.queue == queue && this.taskRegistry == taskRegistry && this.workerRegistry == workerRegistry
      ensures (queue.State() == EmptyTiers && taskRegistry.tasks == map[] && workerRegistry.workers == map[]
               && workerRegistry.Valid()) ==> Valid()
    {
      this.queue := queue;
      this.taskRegistry := taskRegistry;
      this.workerRegistry := workerRegistry;
      new;
      EmptyIsValid();
      assert queue.State() == EmptyTiers && taskRegistry.tasks == map[] && workerRegistry.workers == map[] ==>
        Snap() == System(map[], map[], map[], map[], EmptyTiers);
    }

    /** Allocates t on w; only when that succeeds, t is ASSIGNED to w from now on and leaves the
        queue. */
    method AssignToWorker(t: Task, w: WorkerNode, now: int)
      requires taskRegistry.Valid() && workerRegistry.Valid()
      requires t.id in taskRegistry.tasks && taskRegistry.tasks[t.id] == t
      requires w.id in workerRegistry.workers && workerRegistry.workers[w.id] == w
      modifies t, w, queue
      ensures Snap() == Assign(old(Snap()), t, w.id, now)
    {
      ghost var s := Snap();
      var ok := w.AllocateResources(t);
      MapsEqual(Ledgers(workerRegistry.workers), s.ledgers[w.id := w.State()]);
      assert Snap() == s.(ledgers := s.ledgers[w.id := w.State()]);
      if ok {
        MarkAssigned(t, w.id, now);
      }
    }

    /** The bookkeeping of a successful allocation: t is ASSIGNED to k, started at now, and
        leaves the queue. */
    method MarkAssigned(t: Task, k: WorkerId, now: int)
      requires taskRegistry.Valid()
      requires t.id in taskRegistry.tasks && taskRegistry.tasks[t.id] == t
      modifies t, queue
      ensures Snap() == old(Snap()).(info := old(Snap()).info[t.id := old(Snap()).info[t.id].(status := Assigned, assignedTo := Some(k), startTime := now)],
                                     queue := old(Snap()).queue.Remove(t).0)
    {
      StampAssigned(t, k, now);
      UnqueueTask(t);
    }

    /** Marks t ASSIGNED to k, started at now. */
    method StampAssigned(t: Task, k: WorkerId, now: int)
      requires taskRegistry.Valid()
      requires t.id in taskRegistry.tasks && taskRegistry.tasks[t.id] == t
      modifies t
      ensures var s := old(Snap());
        Snap() == s.(info := s.info[t.id := s.info[t.id].(status := Assigned, assignedTo := Some(k), startTime := now)])
    {
      ghost var s := Snap();
      t.SetStatus(Assigned);
      t.SetAssignedTo(Some(k));
      t.SetStartTime(now);
      MapsEqual(Infos(taskRegistry.tasks), s.info[t.id := InfoOf(t)]);
      assert forall j :: j in workerRegistry.workers ==> workerRegistry.workers[j].State() == s.ledgers[j];
      MapsEqual(Ledgers(workerRegistry.workers), s.ledgers);
    }

    /** Drops the queue entry of t, if there is one. */
    method UnqueueTask(t: Task)
      modifies queue
      ensures var s := old(Snap()); Snap() == s.(queue := s.queue.Remove(t).0)
    {
      ghost var s := Snap();
      var found := queue.Remove(t);
      assert forall j :: j in taskRegistry.tasks ==> InfoOf(taskRegistry.tasks[j]) == s.info[j];
      MapsEqual(Infos(taskRegistry.tasks), s.info);
      assert forall j :: j in workerRegistry.workers ==> workerRegistry.workers[j].State() == s.ledgers[j];
      MapsEqual(Ledgers(workerRegistry.workers), s.ledgers);
    }

    /** Marks t COMPLETED and releases it from w. */
    method CompleteTask(t: Task, w: WorkerNode)
      requires taskRegistry.Valid() && workerRegistry.Valid()
      requires t.id in taskRegistry.tasks && taskRegistry.tasks[t.id] == t
      requires w.id in workerRegistry.workers && workerRegistry.workers[w.id] == w
      modifies t, w
      ensures Snap() == Complete(old(Snap()), t, w.id)
    {
      StampStatus(t, Completed);
      ReleaseFrom(t, w);
    }

    /** Releases t from w, resets it with one more retry and puts it back in the queue. */
    method TimeoutTask(t: Task, w: WorkerNode)
      requires taskRegistry.Valid() && workerRegistry.Valid()
      requires t.id in taskRegistry.tasks && taskRegistry.tasks[t.id] == t
      requires w.id in workerRegistry.workers && workerRegistry.workers[w.id] == w
      modifies t, w, queue
      ensures Snap() == Timeout(old(Snap()), t, w.id)
    {
      ReleaseFrom(t, w);
      RetryTask(t);
      EnqueueTask(t);
    }

    /** Appends t to its tier of the queue. */
    method EnqueueTask(t: Task)
      modifies queue
      ensures var s := old(Snap()); Snap() == s.(queue := s.queue.Enqueue(t))
    {
      ghost var s := Snap();
      queue.Enqueue(t);
      assert forall j :: j in taskRegistry.tasks ==> InfoOf(taskRegistry.tasks[j]) == s.info[j];
      MapsEqual(Infos(taskRegistry.tasks), s.info);
      assert forall j :: j in workerRegistry.workers ==> workerRegistry.workers[j].State() == s.ledgers[j];
      MapsEqual(Ledgers(workerRegistry.workers), s.ledgers);
    }

    /** Releases t from w. */
    method ReleaseFrom(t: Task, w: WorkerNode)
      requires workerRegistry.Valid()
      requires w.id in workerRegistry.workers && workerRegistry.workers[w.id] == w
      modifies w
      ensures var s := old(Snap()); Snap() == s.(ledgers := s.ledgers[w.id := s.ledgers[w.id].Release(t)])
    {
      ghost var s := Snap();
      w.ReleaseResources(t);
      MapsEqual(Ledgers(workerRegistry.workers), s.ledgers[w.id := w.State()]);
    }

    /** Marks t QUEUED and appends it to its tier. */
    method RequeueTask(t: Task)
      requires taskRegistry.Valid()
      requires t.id in taskRegistry.tasks && taskRegistry.tasks[t.id] == t
      modifies t, queue
      ensures Snap() == Requeue(old(Snap()), t)
    {
      StampStatus(t, Queued);
      EnqueueTask(t);
    }

    /** Sets the status of t. */
    method StampStatus(t: Task, st: TaskStatus)
      requires taskRegistry.Valid()
      requires t.id in taskRegistry.tasks && taskRegistry.tasks[t.id] == t
      modifies t
      ensures var s := old(Snap()); Snap() == s.(info := s.info[t.id := s.info[t.id].(status := st)])
    {
      ghost var s := Snap();
      t.SetStatus(st);
      MapsEqual(Infos(taskRegistry.tasks), s.info[t.id := InfoOf(t)]);
      assert forall j :: j in workerRegistry.workers ==> workerRegistry.workers[j].State() == s.ledgers[j];
      MapsEqual(Ledgers(workerRegistry.workers), s.ledgers);
    }

    /** Takes a queued task out of the queue and marks it CANCELLED. */
    method CancelQueuedTask(t: Task)
      requires taskRegistry.Valid()
      requires t.id in taskRegistry.tasks && taskRegistry.tasks[t.id] == t
      modifies t, queue
      ensures Snap() == CancelQueued(old(Snap()), t)
    {
      UnqueueTask(t);
      StampStatus(t, Cancelled);
    }

    /** Releases an assigned task from w, marks it CANCELLED and clears its assignment. */
    method CancelAssignedTask(t: Task, w: WorkerNode)
      requires taskRegistry.Valid() && workerRegistry.Valid()
      requires t.id in taskRegistry.tasks && taskRegistry.tasks[t.id] == t
      requires w.id in workerRegistry.workers && workerRegistry.workers[w.id] == w
      modifies t, w
      ensures Snap() == CancelAssigned(old(Snap()), t, w.id)
    {
      ghost var s := Snap();
      w.ReleaseResources(t);
      t.SetStatus(Cancelled);
      t.SetAssignedTo(None);
      MapsEqual(Infos(taskRegistry.tasks), s.info[t.id := InfoOf(t)]);
      MapsEqual(Ledgers(workerRegistry.workers), s.ledgers[w.id := w.State()]);
      assert InfoOf(t) == s.info[t.id].(status := Cancelled, assignedTo := None);
      assert w.State() == s.ledgers[w.id].Release(t);
    }

    /** Resets a task for reassignment and counts one more retry. */
    method RetryTask(t: Task)
      requires taskRegistry.Valid()
      requires t.id in taskRegistry.tasks && taskRegistry.tasks[t.id] == t
      modifies t
      ensures Snap() == Retry(old(Snap()), t)
    {
      ghost var s := Snap();
      t.ResetForReassignment();
      t.IncrementRetryCount();
      MapsEqual(Infos(taskRegistry.tasks), s.info[t.id := InfoOf(t)]);
      assert InfoOf(t) == Retried(s.info[t.id]);
      assert forall j :: j in workerRegistry.workers ==> workerRegistry.workers[j].State() == s.ledgers[j];
      MapsEqual(Ledgers(workerRegistry.workers), s.ledgers);
    }

    /** The fastest active worker with room for t in the registry's listing, if there is one. */
    method ChooseWorker(t: Task) returns (best: Option<WorkerNode>)
      requires workerRegistry.Valid()
      ensures best.None? <==> !HasCandidate(Snap(), t)
      ensures best.Some? ==> best.value.id in workerRegistry.workers && workerRegistry.workers[best.value.id] == best.value
      ensures best.Some? ==> Fastest(Snap(), t, best.value.id)
    {
      ghost var s := Snap();
      var ws := workerRegistry.GetActiveWorkers();
      best := FindFastestWorker(t, ws);
      forall k' | k' in s.ledgers && s.ledgers[k'].CanAccommodate(t.cpu, t.memory)
        ensures s.workers[k'] in ws && Eligible(s.workers[k'], t)
      {
      }
      if best.Some? {
        assert Fastest(s, t, best.value.id);
      }
    }

    /** Places a detached task on the fastest worker that can take it, or, when none can, marks
        it QUEUED at the tail of its tier. Either way the task is attached again. The ghost k
        names the chosen worker, if any. */
    method TryAssignTask(t: Task, now: int, ghost D: set<TaskId>) returns (b: bool, ghost k: Option<WorkerId>)
      requires ValidBut(D) && Registered(Snap(), t) && t.id in D
      modifies queue, taskRegistry.tasks.Values, workerRegistry.workers.Values
      ensures ValidBut(D - {t.id})
      ensures b <==> HasCandidate(old(Snap()), t)
      ensures b <==> k.Some?
      ensures b ==> Fastest(old(Snap()), t, k.value) && Snap() == Assign(old(Snap()), t, k.value, now)
      ensures !b ==> Snap() == Requeue(old(Snap()), t)
    {
      var best := ChooseWorker(t);
      if best.Some? {
        k := Some(best.value.id);
        AttachTo(t, best.value, now, D);
        b := true;
      } else {
        k := None;
        AttachQueued(t, D);
        b := false;
      }
    }

    /** Assigns the detached task t to w, which can take it; t is attached from then on. */
    method AttachTo(t: Task, w: WorkerNode, now: int, ghost D: set<TaskId>)
      requires ValidBut(D) && Registered(Snap(), t) && t.id in D
      requires w.id in workerRegistry.workers && workerRegistry.workers[w.id] == w
      requires Snap().ledgers[w.id].CanAccommodate(t.cpu, t.memory)
      modifies queue, taskRegistry.tasks.Values, workerRegistry.workers.Values
      ensures ValidBut(D - {t.id}) && Snap() == Assign(old(Snap()), t, w.id, now)
    {
      ghost var s := Snap();
      AssignToWorker(t, w, now);
      AssignAttaches(s, t, w.id, now, D);
    }

    /** Puts the detached task t back in the queue as QUEUED; it is attached from then on. */
    method AttachQueued(t: Task, ghost D: set<TaskId>)
      requires ValidBut(D) && Registered(Snap(), t) && t.id in D
      modifies queue, taskRegistry.tasks.Values
      ensures ValidBut(D - {t.id}) && Snap() == Requeue(old(Snap()), t)
    {
      ghost var s := Snap();
      RequeueTask(t);
      RequeueAttaches(s, t, D);
    }

    /** Takes the head off the queue; it is detached from then on. */
    method PopHead() returns (next: Option<Task>)
      requires Valid()
      modifies queue
      ensures next.None? ==> Snap() == old(Snap()) && old(Snap()).queue.Order() == [] && Valid()
      ensures next.Some? ==> var s := old(Snap());
        && s.queue.Order() != [] && next.value == s.queue.Order()[0] && Snap() == Pop(s)
        && Registered(s, next.value) && s.info[next.value.id].status == Queued
        && ValidBut({next.value.id})
    {
      ghost var s := Snap();
      next := TakeHead();
      if next.Some? {
        PopDetaches(s, {});
        assert {} + {next.value.id} == {next.value.id};
      }
    }

    /** Takes the head off the queue, if there is one. */
    method TakeHead() returns (next: Option<Task>)
      modifies queue
      ensures next.None? <==> old(Snap()).queue.Order() == []
      ensures next.None? ==> Snap() == old(Snap())
      ensures next.Some? ==> next.value == old(Snap()).queue.Order()[0] && Snap() == Pop(old(Snap()))
    {
      ghost var s := Snap();
      next := queue.Dequeue();
      assert Snap() == Pop(s);
    }

    /** Puts a task that is still QUEUED back at the tail of its tier. */
    method PutBack(t: Task)
      requires t.id in Snap().info && Snap().info[t.id].status == Queued
      modifies queue
      ensures Snap() == Requeue(old(Snap()), t)
    {
      ghost var s := Snap();
      queue.Enqueue(t);
      assert s.info[t.id := s.info[t.id].(status := Queued)] == s.info;
    }

    /** The drain places its head t on worker w. */
    method PlaceHead(t: Task, w: WorkerNode, now: int, ghost s0: System, ghost s: System, ghost ks: seq<WorkerId>, ghost ss: seq<System>)
      requires taskRegistry.Valid() && workerRegistry.Valid()
      requires s0.queue.WellFormed() && Partial(s0, s, ks, ss, now) && s.queue.Order() != [] && t == s.queue.Order()[0]
      requires Snap() == Pop(s) && ValidExcept(Pop(s), {t.id}) && Registered(Pop(s), t)
      requires w.id in workerRegistry.workers && workerRegistry.workers[w.id] == w
      requires Fastest(Pop(s), t, w.id)
      modifies t, w, queue
      ensures Valid() && |ks| < |s0.queue.Order()| && Partial(s0, Snap(), ks + [w.id], ss + [Snap()], now)
    {
      AssignToWorker(t, w, now);
      AssignAttaches(Pop(s), t, w.id, now, {t.id});
      assert {t.id} - {t.id} == {};
      PartialStep(s0, s, ks, ss, w.id, now);
    }

    /** The drain puts its head t back, and stops. */
    method BlockHead(t: Task, now: int, ghost s0: System, ghost s: System, ghost ks: seq<WorkerId>, ghost ss: seq<System>)
      requires taskRegistry.Valid() && workerRegistry.Valid()
      requires s0.queue.WellFormed() && Partial(s0, s, ks, ss, now) && s.queue.Order() != [] && t == s.queue.Order()[0]
      requires Snap() == Pop(s) && ValidExcept(Pop(s), {t.id}) && Registered(Pop(s), t)
      requires s.info[t.id].status == Queued && !HasCandidate(Pop(s), t)
      modifies queue
      ensures Valid() && Drained(s0, Snap(), ks, ss, now)
    {
      PutBack(t);
      RequeueAttaches(Pop(s), t, {t.id});
      assert {t.id} - {t.id} == {};
      PartialBlocked(s0, s, ks, ss, now);
    }

    /** One round of the drain: the head is placed, or it goes back and the drain is over. */
    method DrainStep(now: int, ghost s0: System, ghost ks: seq<WorkerId>, ghost ss: seq<System>) returns (more: bool, ghost k: WorkerId)
      requires Valid() && s0.queue.WellFormed() && Partial(s0, Snap(), ks, ss, now)
      modifies queue, taskRegistry.tasks.Values, workerRegistry.workers.Values
      ensures Valid()
      ensures more ==> |ks| < |s0.queue.Order()| && Partial(s0, Snap(), ks + [k], ss + [Snap()], now)
      ensures !more ==> Drained(s0, Snap(), ks, ss, now)
    {
      ghost var s := Snap();
      k := "";
      var next := PopHead();
      if next.None? {
        PartialEmpty(s0, s, ks, ss, now);
        return false, k;
      }
      more, k := RouteHead(next.value, now, s0, s, ks, ss);
    }

    /** The drain's popped head t goes to the fastest worker that can take it, or back to the
        queue when there is none. */
    method RouteHead(t: Task, now: int, ghost s0: System, ghost s: System, ghost ks: seq<WorkerId>, ghost ss: seq<System>)
      returns (more: bool, ghost k: WorkerId)
      requires taskRegistry.Valid() && workerRegistry.Valid()
      requires s0.queue.WellFormed() && Partial(s0, s, ks, ss, now) && s.queue.Order() != [] && t == s.queue.Order()[0]
      requires Snap() == Pop(s) && ValidExcept(Pop(s), {t.id}) && Registered(Pop(s), t)
      requires s.info[t.id].status == Queued
      modifies queue, taskRegistry.tasks.Values, workerRegistry.workers.Values
      ensures Valid()
      ensures more ==> |ks| < |s0.queue.Order()| && Partial(s0, Snap(), ks + [k], ss + [Snap()], now)
      ensures !more ==> Drained(s0, Snap(), ks, ss, now)
    {
      k := "";
      var best := ChooseWorker(t);
      if best.Some? {
        k := best.value.id;
        PlaceHead(t, best.value, now, s0, s, ks, ss);
        return true, k;
      } else {
        BlockHead(t, now, s0, s, ks, ss);
        return false, k;
      }
    }

    /** Drains the queue in dequeue order, each task onto the fastest worker that can take it,
        until the queue is empty or a task finds no such worker; that task goes back to the tail
        of its tier and the drain stops. */
    method AssignQueued(now: int) returns (ghost ks: seq<WorkerId>, ghost ss: seq<System>)
      requires Valid()
      modifies queue, taskRegistry.tasks.Values, workerRegistry.workers.Values
      ensures Valid()
      ensures Drained(old(Snap()), Snap(), ks, ss, now)
    {
      ghost var s0 := Snap();
      ks, ss := [], [s0];
      PartialStart(s0, now);
      while true
        invariant Valid() && Partial(s0, Snap(), ks, ss, now)
        decreases |s0.queue.Order()| - |ks|
      {
        var more, k := DrainStep(now, s0, ks, ss);
        if !more {
          return;
        }
        ks, ss := ks + [k], ss + [Snap()];
      }
    }

    /** Registers t under its id; a duplicate id is refused. */
    method RegisterTask(t: Task) returns (r: Outcome)
      requires taskRegistry.Valid()
      modifies taskRegistry
      ensures taskRegistry.Valid()
      ensures r.Fail? <==> t.id in old(Snap()).tasks
      ensures r.Fail? ==> r.error == DuplicateEntity(t.id) && Snap() == old(Snap())
      ensures r.Pass? ==> Snap() == AddTask(old(Snap()), t, InfoOf(t))
    {
      ghost var s := Snap();
      r := taskRegistry.Register(t);
      if r.Pass? {
        MapsEqual(Infos(taskRegistry.tasks), s.info[t.id := InfoOf(t)]);
      }
    }

    /** Registers the task and tries to place it at once; a duplicate id is refused and nothing
        changes. */
    method SubmitTask(t: Task, now: int) returns (r: Outcome, ghost k: Option<WorkerId>)
      requires Valid()
      modifies taskRegistry, queue, t, taskRegistry.tasks.Values, workerRegistry.workers.Values
      ensures Valid()
      ensures r.Fail? <==> t.id in old(Snap()).tasks
      ensures r.Fail? ==> r.error == DuplicateEntity(t.id) && Snap() == old(Snap())
      ensures r.Pass? ==> var s := AddTask(old(Snap()), t, old(InfoOf(t)));
        && (k.Some? <==> HasCandidate(s, t))
        && (k.Some? ==> Fastest(s, t, k.value) && Snap() == Assign(s, t, k.value, now))
        && (k.None? ==> Snap() == Requeue(s, t))
    {
      ghost var s, i := Snap(), InfoOf(t);
      k := None;
      r := RegisterTask(t);
      if r.Pass? {
        k := PlaceNew(t, now, s, i);
      }
    }

    /** The one assignment attempt for a task just registered. */
    method PlaceNew(t: Task, now: int, ghost s: System, ghost i: TaskInfo) returns (ghost k: Option<WorkerId>)
      requires taskRegistry.Valid() && workerRegistry.Valid() && ValidExcept(s, {})
      requires t.id !in s.tasks && Snap() == AddTask(s, t, i) && Registered(Snap(), t)
      modifies queue, taskRegistry.tasks.Values, workerRegistry.workers.Values
      ensures Valid()
      ensures k.Some? <==> HasCandidate(old(Snap()), t)
      ensures k.Some? ==> Fastest(old(Snap()), t, k.value) && Snap() == Assign(old(Snap()), t, k.value, now)
      ensures k.None? ==> Snap() == Requeue(old(Snap()), t)
    {
      AddTaskDetaches(s, t, i, {});
      assert {} + {t.id} == {t.id};
      var b;
      b, k := TryAssignTask(t, now, {t.id});
      assert {t.id} - {t.id} == {};
    }

    /** Times out the task when it is ASSIGNED and the elapsed time has reached the threshold:
        it is released, reset and requeued with one more retry, and the queue is drained at
        now + elapsed. Otherwise nothing changes; an unknown id fails. */
    method SimulateTaskTimeout(id: TaskId, elapsed: int, now: int) returns (r: Outcome, ghost ks: seq<WorkerId>, ghost ss: seq<System>, ghost k: WorkerId)
      requires Valid()
      modifies queue, taskRegistry.tasks.Values, workerRegistry.workers.Values
      ensures Valid()
      ensures r.Fail? <==> id !in old(Snap()).tasks
      ensures r.Fail? ==> r.error == NotFound(id) && Snap() == old(Snap())
      ensures r.Pass? ==> var s := old(Snap()); var i := s.info[id];
        (i.status != Assigned || elapsed < TimeoutThreshold(s.tasks[id].executionTime)) ==> Snap() == s
      ensures r.Pass? ==> var s := old(Snap()); var i := s.info[id];
        (i.status == Assigned && elapsed >= TimeoutThreshold(s.tasks[id].executionTime)) ==>
          && i.assignedTo == Some(k) && k in s.ledgers
          && Drained(Timeout(s, s.tasks[id], k), Snap(), ks, ss, After(now, elapsed))
    {
      ks, ss, k := [], [], "";
      var g := taskRegistry.GetTask(id);
      if g.Err? {
        return Fail(g.error), ks, ss, k;
      }
      var t := g.value;
      if t.status != Assigned {
        return Pass, ks, ss, k;
      }
      var w := WorkerOf(t);
      k := w.id;
      if elapsed < TimeoutThreshold(t.executionTime) {
        return Pass, ks, ss, k;
      }
      ghost var pre;
      ks, ss, pre := ExpireTask(t, w, After(now, elapsed), Snap());
      return Pass, ks, ss, k;
    }

    /** The registered worker an ASSIGNED task runs on. */
    method WorkerOf(t: Task) returns (w: WorkerNode)
      requires Valid() && Registered(Snap(), t) && t.status == Assigned
      ensures Snap().info[t.id].assignedTo == Some(w.id) && w.id in Snap().ledgers
      ensures t.id in Snap().ledgers[w.id].running && Snap().ledgers[w.id].running[t.id] == t
      ensures w.id in workerRegistry.workers && workerRegistry.workers[w.id] == w
    {
      ghost var s := Snap();
      assert InfoOf(t) == s.info[t.id];
      AssignedRuns(s, t);
      w := workerRegistry.GetWorker(t.assignedTo.value).value;
    }

    /** Times out t on its worker w and drains the queue at time at. */
    method ExpireTask(t: Task, w: WorkerNode, at: int, ghost s: System)
      returns (ghost ks: seq<WorkerId>, ghost ss: seq<System>, ghost pre: System)
      requires Valid() && s == Snap()
      requires w.id in s.ledgers && t.id in s.ledgers[w.id].running && s.ledgers[w.id].running[t.id] == t
      requires w.id in workerRegistry.workers && workerRegistry.workers[w.id] == w
      modifies queue, taskRegistry.tasks.Values, workerRegistry.workers.Values
      ensures Valid()
      ensures t.id in s.info && pre == Timeout(s, t, w.id) && Drained(pre, Snap(), ks, ss, at)
    {
      TimeoutKeepsValid(s, t, w.id);
      RunningEntry(s, {}, w.id, t.id);
      TimeoutTask(t, w);
      pre := Snap();
      ks, ss := AssignQueued(at);
    }

    /** Cancels a QUEUED task (out of the queue) or an ASSIGNED one (released, unassigned, and
        the queue drained) and reports true; a task in any other state is left alone and false
        reported; an unknown id fails. */
    method CancelTask(id: TaskId, now: int) returns (r: Result<bool>, ghost ks: seq<WorkerId>, ghost ss: seq<System>)
      requires Valid()
      modifies queue, taskRegistry.tasks.Values, workerRegistry.workers.Values
      ensures Valid()
      ensures r.Err? <==> id !in old(Snap()).tasks
      ensures r.Err? ==> r.error == NotFound(id) && Snap() == old(Snap())
      ensures r.Ok? ==> var s := old(Snap()); var i := s.info[id];
        && (r.value <==> i.status == Queued || i.status == Assigned)
        && (i.status == Queued ==> Snap() == CancelQueued(s, s.tasks[id]))
        && (i.status == Assigned ==>
              (i.assignedTo.Some? && i.assignedTo.value in s.ledgers
               && Drained(CancelAssigned(s, s.tasks[id], i.assignedTo.value), Snap(), ks, ss, now)))
        && (!r.value ==> Snap() == s)
    {
      ghost var s := Snap();
      ks, ss := [], [];
      var g := taskRegistry.GetTask(id);
      if g.Err? {
        return Err(g.error), ks, ss;
      }
      var t := g.value;
      assert Consistent(s, id);
      if t.status == Queued {
        CancelWaiting(t);
        return Ok(true), ks, ss;
      } else if t.status == Assigned {
        ks, ss := CancelRunning(t, now);
        return Ok(true), ks, ss;
      }
      return Ok(false), ks, ss;
    }

    /** Cancels the QUEUED task t. */
    method CancelWaiting(t: Task)
      requires Valid() && t.id in Snap().tasks && Snap().tasks[t.id] == t && t.status == Queued
      modifies queue, taskRegistry.tasks.Values
      ensures Valid() && Snap() == CancelQueued(old(Snap()), t)
    {
      ghost var s := Snap();
      assert Consistent(s, t.id);
      CancelQueuedTask(t);
      CancelQueuedKeepsValid(s, t);
    }

    /** Cancels the ASSIGNED task t on the worker it runs on, then drains the queue. */
    method CancelRunning(t: Task, now: int) returns (ghost ks: seq<WorkerId>, ghost ss: seq<System>)
      requires Valid() && t.id in Snap().tasks && Snap().tasks[t.id] == t && t.status == Assigned
      modifies queue, taskRegistry.tasks.Values, workerRegistry.workers.Values
      ensures Valid()
      ensures var s := old(Snap()); var i := s.info[t.id];
        && i.assignedTo.Some? && i.assignedTo.value in s.ledgers
        && Drained(CancelAssigned(s, t, i.assignedTo.value), Snap(), ks, ss, now)
    {
      ghost var s := Snap();
      assert Consistent(s, t.id);
      var w := workerRegistry.GetWorker(t.assignedTo.value).value;
      CancelAssignedTask(t, w);
      CancelAssignedKeepsValid(s, t, w.id);
      ks, ss := AssignQueued(now);
    }

    /** Registers a fresh worker with the default configuration under an unused id. */
    method AddScaledWorker() returns (w: WorkerNode)
      requires workerRegistry.Valid()
      modifies workerRegistry
      ensures workerRegistry.Valid()
      ensures fresh(w) && w.id !in old(Snap()).workers && w.speed == AutoScaleSpeed
      ensures w.State() == Ledger(AutoScaleCpu, AutoScaleMemory, Active, 0, 0, map[])
      ensures Snap() == AddWorker(old(Snap()), w, w.State())
    {
      ghost var s := Snap();
      ghost var suffix;
      w, suffix := workerRegistry.AutoScaleWorker();
      assert Ledgers(workerRegistry.workers) == s.ledgers[w.id := w.State()];
    }

    /** When tasks are waiting, adds a fresh default worker under an unused id and drains the
        queue onto the workers; with an empty queue nothing changes. */
    method AutoScale(now: int) returns (r: Option<WorkerNode>, ghost ks: seq<WorkerId>, ghost ss: seq<System>)
      requires Valid()
      modifies queue, workerRegistry, taskRegistry.tasks.Values, workerRegistry.workers.Values
      ensures Valid()
      ensures r.None? <==> old(Snap()).queue.Order() == []
      ensures r.None? ==> Snap() == old(Snap())
      ensures r.Some? ==> fresh(r.value) && r.value.id !in old(Snap()).workers && r.value.speed == AutoScaleSpeed
      ensures r.Some? ==>
        Drained(AddWorker(old(Snap()), r.value, Ledger(AutoScaleCpu, AutoScaleMemory, Active, 0, 0, map[])), Snap(), ks, ss, now)
    {
      ghost var s := Snap();
      ks, ss := [], [];
      if queue.IsEmpty() {
        return None, ks, ss;
      }
      var w;
      w, ks, ss := ScaleAndDrain(now);
      return Some(w), ks, ss;
    }

    /** Adds a fresh default worker and drains the queue onto the workers. */
    method ScaleAndDrain(now: int) returns (w: WorkerNode, ghost ks: seq<WorkerId>, ghost ss: seq<System>)
      requires Valid()
      modifies queue, workerRegistry, taskRegistry.tasks.Values, workerRegistry.workers.Values
      ensures Valid() && fresh(w) && w.id !in old(Snap()).workers && w.speed == AutoScaleSpeed
      ensures Drained(AddWorker(old(Snap()), w, Ledger(AutoScaleCpu, AutoScaleMemory, Active, 0, 0, map[])), Snap(), ks, ss, now)
    {
      ghost var s := Snap();
      w := AddScaledWorker();
      AddWorkerKeeps(s, w, w.State(), {});
      ks, ss := AssignQueued(now);
    }

    /** The tasks of the list that are complete at now, in list order. */
    method SelectComplete(ts: seq<Task>, now: int) returns (r: seq<Task>)
      ensures forall x :: x in r <==> x in ts && x.IsExecutionComplete(now)
      ensures NoDup(ts) ==> NoDup(r)
    {
      r := [];
      var i := 0;
      while i < |ts|
        invariant 0 <= i <= |ts|
        invariant forall x :: x in r <==> x in ts[..i] && x.IsExecutionComplete(now)
        invariant NoDup(ts) ==> NoDup(r)
      {
        if ts[i].IsExecutionComplete(now) {
          if NoDup(ts) {
            assert ts[i] !in ts[..i];
            NoDupConcat(r, [ts[i]]);
          }
          r := r + [ts[i]];
        }
        assert ts[..i + 1] == ts[..i] + [ts[i]];
        i := i + 1;
      }
      assert ts[..i] == ts;
    }

    /** The running tasks of worker w that are due at now, while w and its tasks are as they
        were in s0. */
    method DueHere(w: WorkerNode, now: int, ghost s0: System) returns (due: seq<Task>)
      requires SystemModel.Valid(s0) && w.id in s0.ledgers && Snap().tasks == s0.tasks
      requires w.State() == s0.ledgers[w.id]
      requires forall j :: j in s0.ledgers[w.id].running ==> j in Snap().info && Snap().info[j] == s0.info[j]
      ensures Reports(s0, now, {w.id}, due)
      ensures forall x :: x in due ==> x.id in s0.ledgers[w.id].running && s0.ledgers[w.id].running[x.id] == x
    {
      ghost var l := s0.ledgers[w.id];
      assert Sound(l);
      var running := w.GetRunningTasks();
      due := SelectComplete(running, now);
      DueOnOne(s0, now, w.id);
      forall x | x in running
        ensures x.IsExecutionComplete(now) <==> x.id in DueOn(s0, now, {w.id})
      {
        assert InfoOf(x) == s0.info[x.id];
      }
      forall id | id in DueOn(s0, now, {w.id}) ensures s0.tasks[id] in running {
      }
      assert WellKeyed(s0);
      ReportsFrom(s0, now, {w.id}, due);
    }

    /** One more step of the sweep: x, running on w, is completed. */
    method CompleteOne(x: Task, w: WorkerNode, ghost s0: System, ghost D: set<TaskId>)
      requires taskRegistry.Valid() && workerRegistry.Valid()
      requires SystemModel.Valid(s0) && Snap() == Finish(s0, D)
      requires w.id in s0.workers && s0.workers[w.id] == w && x.id !in D
      requires x.id in s0.ledgers[w.id].running && s0.ledgers[w.id].running[x.id] == x
      modifies x, w
      ensures Snap() == Finish(s0, D + {x.id})
    {
      FinishStep(s0, D, x, w.id);
      RunningEntry(s0, {}, w.id, x.id);
      CompleteTask(x, w);
    }

    /** Completes the listed tasks of worker w, one after the other. */
    method CompleteAll(w: WorkerNode, due: seq<Task>, ghost s0: System, ghost C: set<TaskId>, ghost C': set<TaskId>)
      requires taskRegistry.Valid() && workerRegistry.Valid()
      requires SystemModel.Valid(s0) && Snap() == Finish(s0, C)
      requires w.id in s0.workers && s0.workers[w.id] == w
      requires NoDup(due) && forall x :: x in due ==> x.id !in C
      requires forall x :: x in due ==> x.id in s0.ledgers[w.id].running && s0.ledgers[w.id].running[x.id] == x
      requires C' == C + Ids(due)
      modifies w, taskRegistry.tasks.Values
      ensures Snap() == Finish(s0, C')
    {
      var j := 0;
      ghost var D := C;
      assert Ids(due[..0]) == {};
      while j < |due|
        invariant 0 <= j <= |due|
        invariant D == C + Ids(due[..j])
        invariant Snap() == Finish(s0, D)
      {
        var x := due[j];
        IdsGrow(due, j, s0.ledgers[w.id].running);
        RunningEntry(s0, {}, w.id, x.id);
        assert taskRegistry.tasks[x.id] == x;
        CompleteOne(x, w, s0, D);
        D := D + {x.id};
        j := j + 1;
      }
      assert due[..j] == due;
    }

    /** Completes every task of worker w that is due at now. */
    method CompleteDueOn(w: WorkerNode, now: int, ghost s0: System, ghost P: set<WorkerId>) returns (done: seq<Task>)
      requires taskRegistry.Valid() && workerRegistry.Valid()
      requires SystemModel.Valid(s0) && Snap() == Finish(s0, DueOn(s0, now, P))
      requires w.id in s0.workers && s0.workers[w.id] == w && w.id !in P
      modifies w, taskRegistry.tasks.Values
      ensures Snap() == Finish(s0, DueOn(s0, now, P + {w.id}))
      ensures Reports(s0, now, {w.id}, done)
    {
      done := DueAmong(w, now, s0, P);
      CompleteAll(w, done, s0, DueOn(s0, now, P), DueOn(s0, now, P + {w.id}));
    }

    /** The tasks of worker w due at now, none of them completed yet by the sweep so far. */
    method DueAmong(w: WorkerNode, now: int, ghost s0: System, ghost P: set<WorkerId>) returns (done: seq<Task>)
      requires taskRegistry.Valid() && workerRegistry.Valid()
      requires SystemModel.Valid(s0) && Snap() == Finish(s0, DueOn(s0, now, P))
      requires w.id in s0.workers && s0.workers[w.id] == w && w.id !in P
      ensures Reports(s0, now, {w.id}, done) && NoDup(done)
      ensures forall x :: x in done ==> x.id in s0.ledgers[w.id].running && s0.ledgers[w.id].running[x.id] == x
      ensures forall x :: x in done ==> x.id !in DueOn(s0, now, P)
      ensures DueOn(s0, now, P + {w.id}) == DueOn(s0, now, P) + Ids(done)
    {
      FinishUntouched(s0, now, P, w.id);
      assert w.id in s0.ledgers && w.id in workerRegistry.workers;
      assert Snap().ledgers[w.id] == w.State();
      done := DueHere(w, now, s0);
      assert WellKeyed(s0);
      DueIds(s0, now, P, w.id, done);
    }

    /** One worker's turn in the sweep: its due tasks are completed and added to the report. */
    method CompleteNext(w: WorkerNode, now: int, ghost s0: System, ghost P: set<WorkerId>, completed: seq<Task>)
      returns (completed': seq<Task>)
      requires taskRegistry.Valid() && workerRegistry.Valid()
      requires SystemModel.Valid(s0) && Snap() == Finish(s0, DueOn(s0, now, P))
      requires w.id in s0.workers && s0.workers[w.id] == w && w.id !in P
      requires Reports(s0, now, P, completed)
      modifies w, taskRegistry.tasks.Values
      ensures Snap() == Finish(s0, DueOn(s0, now, P + {w.id}))
      ensures Reports(s0, now, P + {w.id}, completed')
    {
      var done := CompleteDueOn(w, now, s0, P);
      CompletedGrows(s0, now, P, w.id, completed, done);
      completed' := completed + done;
    }

    /** The registry's listing of active workers lists the active workers of the snapshot. */
    lemma ActiveListed(s: System, ws: seq<WorkerNode>)
      requires workerRegistry.Valid() && s == Snap()
      requires NoDup(ws) && forall w :: w in ws <==> w.id in workerRegistry.workers && workerRegistry.workers[w.id] == w && w.IsActive()
      ensures ActiveListing(s, ws)
    {
      forall j | 0 <= j < |ws| ensures ws[j].id in s.workers && s.workers[ws[j].id] == ws[j] {
        assert ws[j] in ws;
      }
    }

    /** Completes, worker by worker in the registry's listing of active workers, every task that
        is due at now; reports the completed tasks. */
    method CompleteActive(now: int) returns (completed: seq<Task>)
      requires Valid()
      modifies taskRegistry.tasks.Values, workerRegistry.workers.Values
      ensures Snap() == Sweep(old(Snap()), now)
      ensures Reports(old(Snap()), now, old(Snap()).ledgers.Keys, completed)
    {
      ghost var s0 := Snap();
      var ws := workerRegistry.GetActiveWorkers();
      ActiveListed(s0, ws);
      completed := CompleteListed(ws, now, s0);
      ListedAll(s0, ws);
      DueOnActive(s0, now, Listed(ws, |ws|));
    }

    /** The loop of the sweep over a listing of the active workers of s0. */
    method CompleteListed(ws: seq<WorkerNode>, now: int, ghost s0: System) returns (completed: seq<Task>)
      requires taskRegistry.Valid() && workerRegistry.Valid()
      requires SystemModel.Valid(s0) && s0 == Snap() && Listing(s0, ws)
      modifies taskRegistry.tasks.Values, workerRegistry.workers.Values
      ensures Snap() == Finish(s0, DueOn(s0, now, Listed(ws, |ws|)))
      ensures Reports(s0, now, Listed(ws, |ws|), completed)
    {
      completed := [];
      FinishNothing(s0);
      assert DueOn(s0, now, Listed(ws, 0)) == {} by {
        assert Listed(ws, 0) == {};
      }
      var i := 0;
      while i < |ws|
        invariant 0 <= i <= |ws|
        invariant Snap() == Finish(s0, DueOn(s0, now, Listed(ws, i)))
        invariant Reports(s0, now, Listed(ws, i), completed)
      {
        ListedNext(s0, ws, i);
        completed := CompleteNext(ws[i], now, s0, Listed(ws, i), completed);
        i := i + 1;
      }
    }

    /** Completes every running task of every active worker that is due at now, then drains the
        queue; reports the completed tasks. */
    method ProcessCompletedTasks(now: int) returns (completed: seq<Task>, ghost ks: seq<WorkerId>, ghost ss: seq<System>)
      requires Valid()
      modifies queue, taskRegistry.tasks.Values, workerRegistry.workers.Values
      ensures Valid()
      ensures Reports(old(Snap()), now, old(Snap()).ledgers.Keys, completed)
      ensures Drained(Sweep(old(Snap()), now), Snap(), ks, ss, now)
    {
      ghost var s0 := Snap();
      completed := CompleteActive(now);
      SweepEffect(s0, now);
      ks, ss := AssignQueued(now);
    }

    /** Takes worker id out of service and hands back its running tasks, which are detached from
        then on; an unknown id fails and nothing changes. */
    method FailNode(id: WorkerId) returns (r: Result<seq<Task>>)
      requires Valid()
      modifies workerRegistry.workers.Values
      ensures r.Err? <==> id !in old(Snap()).workers
      ensures r.Err? ==> r.error == NotFound(id) && Snap() == old(Snap()) && Valid()
      ensures r.Ok? ==> id in old(Snap()).ledgers && Snap() == FailWorker(old(Snap()), id)
      ensures r.Ok? ==> Affected(old(Snap()), id, r.value) && ValidBut(Ids(r.value))
    {
      ghost var s := Snap();
      if id !in workerRegistry.workers {
        r := workerRegistry.MarkWorkerFailed(id);
        return;
      }
      assert Sound(s.ledgers[id]);
      r := StopWorker(id);
      FailingAffects(s, id, r.value);
      FailWorkerDetaches(s, id, {});
    }

    /** The registry's part of a failure, for a registered worker. */
    method StopWorker(id: WorkerId) returns (r: Result<seq<Task>>)
      requires taskRegistry.Valid() && workerRegistry.Valid() && id in workerRegistry.workers
      requires workerRegistry.workers[id].State().Keyed()
      modifies workerRegistry.workers[id]
      ensures workerRegistry.Valid() && taskRegistry.Valid() && id in old(Snap()).ledgers
      ensures Snap() == FailWorker(old(Snap()), id)
      ensures r.Ok? && NoDup(r.value)
      ensures forall t :: t in r.value <==> t.id in old(Snap()).ledgers[id].running && old(Snap()).ledgers[id].running[t.id] == t
    {
      ghost var s := Snap();
      r := workerRegistry.MarkWorkerFailed(id);
      ghost var ws := workerRegistry.workers;
      forall k | k in ws && k != id ensures ws[k].State() == s.ledgers[k] {
        assert ws[k].id != ws[id].id;
      }
      UpdateMatches(s.ledgers, Ledgers(ws), id, ws[id].State());
      assert forall j :: j in taskRegistry.tasks ==> InfoOf(taskRegistry.tasks[j]) == s.info[j];
      MapsEqual(Infos(taskRegistry.tasks), s.info);
    }

    /** Deals with the i-th affected task: if it is still ASSIGNED, it is reset and placed
        again, and it is listed when that placement succeeds. */
    method FailOverNext(ghost s: System, id: WorkerId, now: int, affected: seq<Task>, i: nat, reassigned: seq<Task>,
                        ghost requeued: seq<Task>)
      returns (reassigned': seq<Task>, ghost requeued': seq<Task>)
      requires SystemModel.Valid(s) && id in s.ledgers && i < |affected| && Affected(s, id, affected)
      requires ValidBut(Ids(affected[i..])) && FailingOver(s, id, now, affected, i, reassigned, requeued, Snap())
      modifies queue, taskRegistry.tasks.Values, workerRegistry.workers.Values
      ensures ValidBut(Ids(affected[i + 1..])) && FailingOver(s, id, now, affected, i + 1, reassigned', requeued', Snap())
    {
      var t := affected[i];
      ghost var s1 := Snap();
      FailedTaskEntry(s, id, now, affected, i, reassigned, requeued, s1);
      reassigned', requeued' := reassigned, requeued;
      if t.status == Assigned {
        var b, _ := ReassignOne(t, now, Ids(affected[i..]), id);
        FailingOverStep(s, id, now, affected, i, reassigned, requeued, s1, Snap(), b);
        if b {
          reassigned' := reassigned + [t];
        } else {
          requeued' := requeued + [t];
        }
      }
    }

    /** Resets an affected task, counts a retry and tries to place it again; it is attached
        from then on. It is placed exactly when some worker can take it, on a fastest such worker
        w; no worker is left emptier. The failed worker k is left as it is. */
    method ReassignOne(t: Task, now: int, ghost D: set<TaskId>, ghost k: WorkerId) returns (b: bool, ghost w: Option<WorkerId>)
      requires ValidBut(D) && Registered(Snap(), t) && t.id in D
      requires k in Snap().ledgers && Snap().ledgers[k].status == Inactive
      modifies queue, taskRegistry.tasks.Values, workerRegistry.workers.Values
      ensures ValidBut(D - {t.id})
      ensures b <==> HasCandidate(old(Snap()), t)
      ensures b ==> w.Some? && Fastest(old(Snap()), t, w.value)
      ensures !b ==> !HasCandidate(Snap(), t)
      ensures var s := old(Snap());
        && Snap().tasks == s.tasks && Snap().workers == s.workers && NoEmptier(s, Snap())
        && Snap().ledgers[k] == s.ledgers[k] && t.id in Snap().info
        && Snap().info == s.info[t.id := Snap().info[t.id]]
        && Redone(s.info[t.id], Snap().info[t.id], now) && (b <==> Snap().info[t.id].status == Assigned)
        && Snap().queue == if b then s.queue else s.queue.Enqueue(t)
    {
      ghost var s := Snap();
      DetachedIsNowhere(s, D, t.id);
      RetryTask(t);
      SetDetachedInfo(s, t, Retried(s.info[t.id]), D);
      ghost var s1 := Snap();
      b, w := TryAssignTask(t, now, D);
      ghost var s2 := Snap();
      RetriedPlacement(s.info[t.id], s1, t, k, w, now, b, s2);
      UpdateTwice(s.info, s1.info, s2.info, t.id, Retried(s.info[t.id]));
    }

    /** Takes worker id out of service and tries to place each task that ran on it elsewhere,
        with one more retry; reports the tasks placed. The others are queued, in the order given
        by requeued. An unknown id fails and nothing changes. */
    method HandleWorkerFailure(id: WorkerId, now: int) returns (r: Result<seq<Task>>, ghost requeued: seq<Task>)
      requires Valid()
      modifies queue, taskRegistry.tasks.Values, workerRegistry.workers.Values
      ensures Valid()
      ensures r.Err? <==> id !in old(Snap()).workers
      ensures r.Err? ==> r.error == NotFound(id) && Snap() == old(Snap())
      ensures r.Ok? ==> id in old(Snap()).ledgers && FailedOver(old(Snap()), id, now, r.value, requeued, Snap())
    {
      ghost var s := Snap();
      var f := FailNode(id);
      if f.Err? {
        return Err(f.error), [];
      }
      var reassigned;
      reassigned, requeued := FailOverAll(s, id, now, f.value);
      return Ok(reassigned), requeued;
    }

    /** Walks the affected tasks of the failed worker id in order, placing again those still
        ASSIGNED. */
    method FailOverAll(ghost s: System, id: WorkerId, now: int, affected: seq<Task>)
      returns (reassigned: seq<Task>, ghost requeued: seq<Task>)
      requires SystemModel.Valid(s) && id in s.ledgers && Affected(s, id, affected)
      requires ValidBut(Ids(affected)) && Snap() == FailWorker(s, id)
      modifies queue, taskRegistry.tasks.Values, workerRegistry.workers.Values
      ensures ValidBut({}) && FailedOver(s, id, now, reassigned, requeued, Snap())
    {
      FailingOverStart(s, id, now, affected);
      assert affected[0..] == affected;
      ghost var n;
      reassigned, requeued, n := FailOverEach(s, id, now, affected);
      assert Ids(affected[n..]) == {};
      FailingOverDone(s, id, now, affected, reassigned, requeued, Snap());
    }

    /** The loop of the failover: the affected tasks one after the other. */
    method FailOverEach(ghost s: System, id: WorkerId, now: int, affected: seq<Task>)
      returns (reassigned: seq<Task>, ghost requeued: seq<Task>, ghost n: nat)
      requires SystemModel.Valid(s) && id in s.ledgers && Affected(s, id, affected)
      requires ValidBut(Ids(affected[0..])) && FailingOver(s, id, now, affected, 0, [], [], Snap())
      modifies queue, taskRegistry.tasks.Values, workerRegistry.workers.Values
      ensures n == |affected| && ValidBut(Ids(affected[n..]))
      ensures FailingOver(s, id, now, affected, n, reassigned, requeued, Snap())
    {
      reassigned, requeued := [], [];
      var i := 0;
      while i < |affected|
        invariant 0 <= i <= |affected|
        invariant ValidBut(Ids(affected[i..]))
        invariant FailingOver(s, id, now, affected, i, reassigned, requeued, Snap())
      {
        reassigned, requeued := FailOverNext(s, id, now, affected, i, reassigned, requeued);
        i := i + 1;
      }
      n := i;
    }
  }
}
