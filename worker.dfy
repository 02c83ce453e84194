/**
  The worker node: fixed capacity and speed, and a resource ledger (status, used CPU and
  memory, and the tasks running on it keyed by task id) that allocation and release change.
 */
module WorkerModel {
  import opened Types
  import opened TaskModel

  datatype Resource = Cpu | Memory

  function Demand(t: Task, r: Resource): Pos {
    if r == Cpu then t.cpu else t.memory
  }

  /** The combined demand of a set of running tasks. Every task demands at least one unit. */
  ghost function Total(m: map<TaskId, Task>, r: Resource): (s: int)
    ensures s >= |m|
    ensures m == map[] <==> s == 0
    decreases |m|
  {
    if m == map[] then 0
    else
      var k := AnyKey(m);
      assert (m - {k}).Keys == m.Keys - {k};
      Demand(m[k], r) + Total(m - {k}, r)
  }

  /** Taking one task out of a running set takes exactly its demand out of the total. */
  lemma {:induction false} TotalRemove(m: map<TaskId, Task>, k: TaskId, r: Resource)
    requires k in m
    ensures Total(m, r) == Demand(m[k], r) + Total(m - {k}, r)
    decreases |m|
  {
    var j := AnyKey(m);
    assert (m - {j}).Keys == m.Keys - {j};
    if j != k {
      assert (m - {k}).Keys == m.Keys - {k};
      TotalRemove(m - {j}, k, r);
      TotalRemove(m - {k}, j, r);
      assert m - {j} - {k} == m - {k} - {j};
    }
  }

  /** Adding a task under an unused id adds exactly its demand to the total. */
  lemma TotalAdd(m: map<TaskId, Task>, k: TaskId, t: Task, r: Resource)
    requires k !in m
    ensures Total(m[k := t], r) == Total(m, r) + Demand(t, r)
  {
    TotalRemove(m[k := t], k, r);
    assert m[k := t] - {k} == m;
  }

  /** The mutable part of a worker, together with its fixed capacity. */
  datatype Ledger = Ledger(totalCpu: int, totalMemory: int, status: WorkerStatus,
                           usedCpu: int, usedMemory: int, running: map<TaskId, Task>)
  {
    function AvailableCpu(): int {
      totalCpu - usedCpu
    }

    function AvailableMemory(): int {
      totalMemory - usedMemory
    }

    predicate CanAccommodate(cpu: int, memory: int) {
      status == Active && AvailableCpu() >= cpu && AvailableMemory() >= memory
    }

    /** Every running task is filed under its own id. */
    ghost predicate Keyed() {
      forall k :: k in running ==> running[k].id == k
    }

    /** Usage never goes below zero or above capacity. */
    ghost predicate Bounded() {
      0 <= usedCpu <= totalCpu && 0 <= usedMemory <= totalMemory && Keyed()
    }

    /** Usage is exactly what the running tasks demand. */
    ghost predicate Balanced() {
      usedCpu == Total(running, Cpu) && usedMemory == Total(running, Memory)
    }

    /** Re-checks capacity; on success charges the task and files it under its id. */
    function Allocate(t: Task): (Ledger, bool) {
      if CanAccommodate(t.cpu, t.memory) then
        (this.(usedCpu := usedCpu + t.cpu, usedMemory := usedMemory + t.memory,
               running := running[t.id := t]), true)
      else
        (this, false)
    }

    /** Removes a running task and refunds its demand, never below zero; absent tasks are ignored. */
    function Release(t: Task): Ledger {
      if t.id in running then
        this.(running := running - {t.id},
              usedCpu := ClampAtZero(usedCpu - t.cpu),
              usedMemory := ClampAtZero(usedMemory - t.memory))
      else
        this
    }

    /** Empties the running set and zeroes usage. */
    function ReleaseAll(): Ledger {
      this.(running := map[], usedCpu := 0, usedMemory := 0)
    }
  }

  function ClampAtZero(x: int): int {
    if x < 0 then 0 else x
  }

  /** The two ledgers agree on status and capacity; only usage and running tasks may differ. */
  ghost predicate SameSetup(l: Ledger, l': Ledger) {
    l.status == l'.status && l.totalCpu == l'.totalCpu && l.totalMemory == l'.totalMemory
  }

  /** l' has the setup of l and uses at least as much of its CPU and memory. */
  ghost predicate Fuller(l: Ledger, l': Ledger) {
    SameSetup(l, l') && l'.usedCpu >= l.usedCpu && l'.usedMemory >= l.usedMemory
  }

  /** Allocation succeeds exactly when the worker can accommodate the task, and then charges
      exactly the task's demand; otherwise nothing changes. Capacity and status never change. */
  lemma AllocateEffect(l: Ledger, t: Task)
    ensures var (l', ok) := l.Allocate(t);
      && (ok <==> l.status == Active && l.totalCpu - l.usedCpu >= t.cpu && l.totalMemory - l.usedMemory >= t.memory)
      && (ok ==> l'.usedCpu == l.usedCpu + t.cpu && l'.usedMemory == l.usedMemory + t.memory
                 && l'.running.Keys == l.running.Keys + {t.id} && l'.running[t.id] == t)
      && (!ok ==> l' == l)
      && l'.totalCpu == l.totalCpu && l'.totalMemory == l.totalMemory && l'.status == l.status
  {
  }

  /** Allocation keeps usage within capacity. */
  lemma AllocateKeepsBounds(l: Ledger, t: Task)
    requires l.Bounded()
    ensures l.Allocate(t).0.Bounded()
  {
  }

  /** Allocation keeps usage equal to the running demand, as long as the id is not already running. */
  lemma AllocateKeepsBalance(l: Ledger, t: Task)
    requires l.Balanced() && t.id !in l.running
    ensures l.Allocate(t).0.Balanced()
  {
    if l.Allocate(t).1 {
      TotalAdd(l.running, t.id, t, Cpu);
      TotalAdd(l.running, t.id, t, Memory);
    }
  }

  /** On a balanced ledger the clamp never fires: release refunds exactly the task's demand
      and the ledger stays bounded and balanced. */
  lemma ReleaseKeepsBalance(l: Ledger, t: Task)
    requires l.Bounded() && l.Balanced()
    requires t.id in l.running ==> l.running[t.id] == t
    ensures l.Release(t).Bounded() && l.Release(t).Balanced()
    ensures t.id in l.running ==> l.Release(t).usedCpu == l.usedCpu - t.cpu
                                  && l.Release(t).usedMemory == l.usedMemory - t.memory
  {
    if t.id in l.running {
      TotalRemove(l.running, t.id, Cpu);
      TotalRemove(l.running, t.id, Memory);
    }
  }

  /** Releasing keeps usage within capacity even on an unbalanced ledger. */
  lemma ReleaseKeepsBounds(l: Ledger, t: Task)
    requires l.Bounded()
    ensures l.Release(t).Bounded()
  {
  }

  /** Releasing twice has the same effect as releasing once. */
  lemma ReleaseIdempotent(l: Ledger, t: Task)
    ensures l.Release(t).Release(t) == l.Release(t)
    ensures t.id !in l.Release(t).running
  {
  }

  /** Releasing a task right after allocating it restores the ledger exactly. */
  lemma AllocateThenRelease(l: Ledger, t: Task)
    requires l.Bounded() && t.id !in l.running && l.Allocate(t).1
    ensures l.Allocate(t).0.Release(t) == l
  {
    assert l.running[t.id := t] - {t.id} == l.running;
  }

  /** Releasing everything leaves an empty, zero-usage, balanced ledger with the same capacity
      and status. */
  lemma ReleaseAllEmpties(l: Ledger)
    requires l.totalCpu >= 0 && l.totalMemory >= 0
    ensures var l' := l.ReleaseAll();
      && l'.running == map[] && l'.usedCpu == 0 && l'.usedMemory == 0
      && l'.Bounded() && l'.Balanced()
      && l'.totalCpu == l.totalCpu && l'.totalMemory == l.totalMemory && l'.status == l.status
  {
  }

  class WorkerNode {
    const id: WorkerId
    const totalCpu: Pos
    const totalMemory: Pos
    const speed: Pos

    var status: WorkerStatus
    var usedCpu: int
    var usedMemory: int
    var running: map<TaskId, Task>

    function State(): Ledger
      reads this
    {
      Ledger(totalCpu, totalMemory, status, usedCpu, usedMemory, running)
    }

    ghost predicate Valid()
      reads this
    {
      State().Bounded() && State().Balanced()
    }

    /** A new worker is active, idle and runs nothing. */
    constructor (id: WorkerId, totalCpu: Pos, totalMemory: Pos, speed: Pos)
      ensures this.id == id && this.totalCpu == totalCpu && this.totalMemory == totalMemory
      ensures this.speed == speed
      ensures State() == Ledger(totalCpu, totalMemory, Active, 0, 0, map[])
      ensures Valid()
    {
      this.id := id;
      this.totalCpu := totalCpu;
      this.totalMemory := totalMemory;
      this.speed := speed;
      status := Active;
      usedCpu := 0;
      usedMemory := 0;
      running := map[];
    }

    /** Free CPU, never negative while usage is bounded. */
    function AvailableCpu(): (r: int)
      reads this
      ensures State().Bounded() ==> 0 <= r <= totalCpu
    {
      State().AvailableCpu()
    }

    /** Free memory, never negative while usage is bounded. */
    function AvailableMemory(): (r: int)
      reads this
      ensures State().Bounded() ==> 0 <= r <= totalMemory
    {
      State().AvailableMemory()
    }

    predicate IsActive()
      reads this
    {
      status == Active
    }

    method SetStatus(s: WorkerStatus)
      modifies this
      ensures State() == old(State()).(status := s)
    {
      status := s;
    }

    predicate CanAccommodate(cpu: int, memory: int)
      reads this
    {
      State().CanAccommodate(cpu, memory)
    }

    method AllocateResources(t: Task) returns (ok: bool)
      modifies this
      ensures (State(), ok) == old(State()).Allocate(t)
    {
      if !CanAccommodate(t.cpu, t.memory) {
        return false;
      }
      usedCpu := usedCpu + t.cpu;
      usedMemory := usedMemory + t.memory;
      running := running[t.id := t];
      return true;
    }

    method ReleaseResources(t: Task)
      modifies this
      ensures State() == old(State()).Release(t)
    {
      if t.id in running {
        running := running - {t.id};
        usedCpu := ClampAtZero(usedCpu - t.cpu);
        usedMemory := ClampAtZero(usedMemory - t.memory);
      }
    }

    /** The running tasks, each once, in an unspecified (hash-map) order. */
    method GetRunningTasks() returns (ts: seq<Task>)
      requires State().Keyed()
      ensures NoDup(ts)
      ensures forall t :: t in ts <==> t.id in running && running[t.id] == t
    {
      ts := [];
      var rest := running.Keys;
      while rest != {}
        invariant rest <= running.Keys
        invariant NoDup(ts)
        invariant forall t :: t in ts <==> t.id in running && running[t.id] == t && t.id !in rest
        decreases rest
      {
        var k :| k in rest;
        ts := ts + [running[k]];
        rest := rest - {k};
      }
    }

    /** Empties the worker and hands back every task that was running on it. */
    method ReleaseAllResources() returns (ts: seq<Task>)
      requires State().Keyed()
      modifies this
      ensures State() == old(State()).ReleaseAll()
      ensures NoDup(ts)
      ensures forall t :: t in ts <==> t.id in old(running) && old(running)[t.id] == t
    {
      ts := GetRunningTasks();
      running := map[];
      usedCpu := 0;
      usedMemory := 0;
    }
  }

  /** What the worker constructor rejects, in its order; None when all are valid. */
  function WorkerArgumentError(id: Option<WorkerId>, cpu: int, memory: int, speed: int): (r: Option<Error>)
    ensures r.None? <==> id.Some? && cpu > 0 && memory > 0 && speed > 0
    ensures id.None? ==> r == Some(NullArgument("nodeId"))
    ensures id.Some? && cpu <= 0 ==> r == Some(InvalidArgument("cpu"))
    ensures id.Some? && cpu > 0 && memory <= 0 ==> r == Some(InvalidArgument("memory"))
    ensures id.Some? && cpu > 0 && memory > 0 && speed <= 0 ==> r == Some(InvalidArgument("speed"))
  {
    var amounts := [("cpu", cpu), ("memory", memory), ("speed", speed)];
    assert amounts[0].1 == cpu && amounts[1].1 == memory && amounts[2].1 == speed;
    ArgumentError("nodeId", id.Some?, amounts)
  }

  /** The validating constructor. */
  method NewWorker(id: Option<WorkerId>, cpu: int, memory: int, speed: int) returns (r: Result<WorkerNode>)
    ensures r.Err? <==> WorkerArgumentError(id, cpu, memory, speed).Some?
    ensures r.Err? ==> r.error == WorkerArgumentError(id, cpu, memory, speed).value
    ensures r.Ok? ==> fresh(r.value) && r.value.Valid()
    ensures r.Ok? ==> r.value.id == id.value && r.value.speed == speed
                      && r.value.State() == Ledger(cpu, memory, Active, 0, 0, map[])
  {
    var e := WorkerArgumentError(id, cpu, memory, speed);
    if e.Some? {
      return Err(e.value);
    }
    var w := new WorkerNode(id.value, cpu, memory, speed);
    return Ok(w);
  }
}
