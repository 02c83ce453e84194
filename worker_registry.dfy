/**
  The worker registry: every worker keyed by its node id, plus the counter from which
  auto-scaled worker ids are generated.
 */
module WorkerRegistries {
  import opened Types
  import opened TaskModel
  import opened WorkerModel

  /** Capacity of an auto-scaled worker: 2 CPU, 4 memory, speed 10. */
  const AutoScaleCpu: Pos := 2
  const AutoScaleMemory: Pos := 4
  const AutoScaleSpeed: Pos := 10

  /** The id of an auto-scaled worker with numeric suffix n. */
  function AutoId(n: nat): (id: WorkerId)
    ensures |id| >= 2 && id[0] == 'W'
  {
    "W" + NatToString(n)
  }

  /** Different suffixes give different ids. */
  lemma AutoIdDistinct(a: nat, b: nat)
    ensures a != b ==> AutoId(a) != AutoId(b)
  {
    if AutoId(a) == AutoId(b) {
      assert NatToString(a) == AutoId(a)[1..] == AutoId(b)[1..] == NatToString(b);
      NatToStringInjective(a, b);
    }
  }

  class WorkerRegistry {
    var workers: map<WorkerId, WorkerNode>
    var autoScaleCounter: nat
    /** The numeric suffixes handed out by auto-scaling since the last clear. */
    ghost var issued: set<nat>

    /** Workers are filed under their own ids, the counter starts at 1, and every suffix handed
        out so far is below the next one that would be generated. */
    ghost predicate Valid()
      reads this
    {
      && (forall k :: k in workers ==> workers[k].id == k)
      && autoScaleCounter >= 1
      && (forall n :: n in issued ==> n < |workers| + autoScaleCounter)
    }

    /** The suffix the next auto-scaled worker would get. */
    function NextSuffix(): nat
      reads this
    {
      |workers| + autoScaleCounter
    }

    constructor ()
      ensures workers == map[] && autoScaleCounter == 1 && issued == {}
      ensures Valid()
    {
      workers := map[];
      autoScaleCounter := 1;
      issued := {};
    }

    /** Adds the worker under its id; a registered id is rejected and nothing changes. */
    method Register(w: WorkerNode) returns (r: Outcome)
      requires Valid()
      modifies this
      ensures Valid()
      ensures r.Fail? <==> w.id in old(workers)
      ensures r.Fail? ==> r.error == DuplicateEntity(w.id) && workers == old(workers)
      ensures r.Pass? ==> workers == old(workers)[w.id := w]
      ensures autoScaleCounter == old(autoScaleCounter) && issued == old(issued)
    {
      if w.id in workers {
        return Fail(DuplicateEntity(w.id));
      }
      workers := workers[w.id := w];
      return Pass;
    }

    /** The registered worker with that id, or NotFound. */
    function GetWorker(id: WorkerId): (r: Result<WorkerNode>)
      reads this
      ensures r.Ok? <==> id in workers
      ensures r.Ok? ==> r.value == workers[id] && (Valid() ==> r.value.id == id)
      ensures r.Err? ==> r.error == NotFound(id)
    {
      if id in workers then Ok(workers[id]) else Err(NotFound(id))
    }

    /** Whether a lookup of the id would succeed. */
    predicate ContainsWorker(id: WorkerId): (b: bool)
      reads this
      ensures b <==> GetWorker(id).Ok?
    {
      id in workers
    }

    /** Exactly the registered workers with the given status, each once, in hash-map order. */
    method GetWorkersByStatus(s: WorkerStatus) returns (ws: seq<WorkerNode>)
      requires Valid()
      ensures NoDup(ws)
      ensures forall w :: w in ws <==> w.id in workers && workers[w.id] == w && w.status == s
    {
      ws := [];
      var rest := workers.Keys;
      while rest != {}
        invariant rest <= workers.Keys
        invariant NoDup(ws)
        invariant forall w :: w in ws <==> w.id in workers && workers[w.id] == w && w.status == s && w.id !in rest
        decreases rest
      {
        var k :| k in rest;
        if workers[k].status == s {
          ws := ws + [workers[k]];
        }
        rest := rest - {k};
      }
    }

    /** Exactly the registered active workers, each once. */
    method GetActiveWorkers() returns (ws: seq<WorkerNode>)
      requires Valid()
      ensures NoDup(ws)
      ensures forall w :: w in ws <==> w.id in workers && workers[w.id] == w && w.IsActive()
    {
      ws := GetWorkersByStatus(Active);
    }

    /** The registered active workers as a set. */
    ghost function ActiveWorkers(): set<WorkerNode>
      reads this, workers.Values
    {
      set w | w in workers.Values && w.IsActive()
    }

    /** The number of registered ids. */
    function GetWorkerCount(): (n: nat)
      reads this
      ensures n == |workers.Keys|
      ensures n == 0 <==> forall id :: GetWorker(id).Err?
    {
      if workers == map[] then 0
      else
        assert GetWorker(AnyKey(workers)).Ok?;
        |workers|
    }

    /** The number of active workers, which is the length of the active-worker listing. */
    method GetActiveWorkerCount() returns (n: nat)
      requires Valid()
      ensures n == |ActiveWorkers()|
    {
      var ws := GetActiveWorkers();
      NoDupCardinality(ws);
      assert (set x | x in ws) == ActiveWorkers();
      n := |ws|;
    }

    /** Takes the worker out of service and hands back everything that was running on it;
        an unknown id fails and nothing changes. */
    method MarkWorkerFailed(id: WorkerId) returns (r: Result<seq<Task>>)
      requires id in workers ==> workers[id].State().Keyed()
      modifies if id in workers then {workers[id]} else {}
      ensures r.Err? <==> id !in workers
      ensures r.Err? ==> r.error == NotFound(id)
      ensures id in workers ==> workers[id].State() == old(workers[id].State()).(status := Inactive).ReleaseAll()
      ensures r.Ok? ==> NoDup(r.value)
      ensures r.Ok? ==> forall t :: t in r.value <==> t.id in old(workers[id].running) && old(workers[id].running)[t.id] == t
    {
      var g := GetWorker(id);
      if g.Err? {
        return Err(g.error);
      }
      var w := g.value;
      w.SetStatus(Inactive);
      var ts := w.ReleaseAllResources();
      return Ok(ts);
    }

    /** Brings an inactive worker back into service; reports false, changing nothing, for an
        unknown or already active worker. */
    method ReactivateWorker(id: WorkerId) returns (b: bool)
      modifies if id in workers then {workers[id]} else {}
      ensures b <==> id in workers && old(workers[id].status) == Inactive
      ensures b ==> workers[id].State() == old(workers[id].State()).(status := Active)
      ensures !b ==> id in workers ==> workers[id].State() == old(workers[id].State())
    {
      if id in workers && !workers[id].IsActive() {
        workers[id].SetStatus(Active);
        return true;
      }
      return false;
    }

    /** Auto-scaling as the registry does it: the id "W" + (size + counter), the counter bumped
        by one, and the new worker stored with no duplicate check, replacing any worker that
        already has that id. The suffix is new among auto-scaled ids, but the id itself may be
        registered already. */
    method AutoScaleWorkerAsWritten() returns (w: WorkerNode)
      requires Valid()
      modifies this
      ensures Valid()
      ensures fresh(w) && w.Valid() && w.speed == AutoScaleSpeed
      ensures w.State() == Ledger(AutoScaleCpu, AutoScaleMemory, Active, 0, 0, map[])
      ensures w.id == AutoId(old(NextSuffix())) && old(NextSuffix()) !in old(issued)
      ensures workers == old(workers)[w.id := w]
      ensures autoScaleCounter == old(autoScaleCounter) + 1
      ensures issued == old(issued) + {old(NextSuffix())}
    {
      var n := NextSuffix();
      autoScaleCounter := autoScaleCounter + 1;
      w := new WorkerNode(AutoId(n), AutoScaleCpu, AutoScaleMemory, AutoScaleSpeed);
      workers := workers[w.id := w];
      issued := issued + {n};
    }

    /** Auto-scaling that never replaces a worker: the counter is bumped until the generated id
        is unused, and only then is the worker added. */
    method AutoScaleWorker() returns (w: WorkerNode, ghost suffix: nat)
      requires Valid()
      modifies this
      ensures Valid()
      ensures fresh(w) && w.Valid() && w.speed == AutoScaleSpeed
      ensures w.State() == Ledger(AutoScaleCpu, AutoScaleMemory, Active, 0, 0, map[])
      ensures w.id !in old(workers)
      ensures workers == old(workers)[w.id := w]
      ensures w.id == AutoId(suffix) && suffix >= old(NextSuffix()) && suffix !in old(issued)
      ensures forall m :: old(NextSuffix()) <= m < suffix ==> AutoId(m) in old(workers)
      ensures autoScaleCounter == old(autoScaleCounter) + 1 + (suffix - old(NextSuffix()))
    {
      var n := SkipTaken();
      w := new WorkerNode(AutoId(n), AutoScaleCpu, AutoScaleMemory, AutoScaleSpeed);
      workers := workers[w.id := w];
      issued := issued + {n};
      suffix := n;
    }

    /** Draws suffixes from the counter until the generated id is unused, and returns that one. */
    method SkipTaken() returns (n: nat)
      requires Valid()
      modifies this
      ensures workers == old(workers) && issued == old(issued) && Valid()
      ensures n >= old(NextSuffix()) && AutoId(n) !in workers && n + 1 == NextSuffix()
      ensures forall m :: old(NextSuffix()) <= m < n ==> AutoId(m) in old(workers)
      ensures autoScaleCounter == old(autoScaleCounter) + 1 + (n - old(NextSuffix()))
    {
      n := NextSuffix();
      autoScaleCounter := autoScaleCounter + 1;
      while AutoId(n) in workers
        invariant n == |workers| + autoScaleCounter - 1
        invariant n >= old(NextSuffix()) && autoScaleCounter == old(autoScaleCounter) + 1 + (n - old(NextSuffix()))
        invariant forall m :: old(NextSuffix()) <= m < n ==> AutoId(m) in old(workers)
        invariant workers == old(workers) && issued == old(issued)
        decreases Claimed(workers, n)
      {
        ClaimedShrinks(workers, n);
        n := n + 1;
        autoScaleCounter := autoScaleCounter + 1;
      }
    }

    /** Empties the registry and restarts auto-scaled ids from the counter's initial value. */
    method Clear()
      modifies this
      ensures workers == map[] && autoScaleCounter == 1 && issued == {}
      ensures Valid()
    {
      workers := map[];
      autoScaleCounter := 1;
      issued := {};
    }
  }

  /** The ids of m that are auto-scaled ids with a suffix of at least n. */
  ghost function Claimed(m: map<WorkerId, WorkerNode>, n: nat): set<WorkerId> {
    set k | k in m.Keys && exists j: nat :: j >= n && k == AutoId(j)
  }

  /** Skipping a taken suffix strictly shrinks the set of taken suffixes still ahead. */
  lemma ClaimedShrinks(m: map<WorkerId, WorkerNode>, n: nat)
    requires AutoId(n) in m
    ensures Claimed(m, n + 1) < Claimed(m, n)
  {
    forall j: nat | j >= n + 1
      ensures AutoId(j) != AutoId(n)
    {
      AutoIdDistinct(j, n);
    }
    assert AutoId(n) in Claimed(m, n);
    assert AutoId(n) !in Claimed(m, n + 1);
  }

  /** The auto-scaled ids of the two scenarios below. */
  lemma SmallAutoIds()
    ensures AutoId(2) == "W2" && AutoId(3) == "W3"
  {
    assert NatToString(2) == "2" && NatToString(3) == "3";
  }

  /** When only "W2" is taken, the first free auto-scaled suffix from 2 on is 3. */
  lemma FirstFreeAfterW2(taken: set<WorkerId>, suffix: nat)
    requires taken == {"W2"} && suffix >= 2 && AutoId(suffix) !in taken
    requires forall m :: 2 <= m < suffix ==> AutoId(m) in taken
    ensures suffix == 3 && AutoId(suffix) == "W3"
  {
    SmallAutoIds();
    AutoIdDistinct(3, 2);
  }

  /** With only "W2" registered and the counter at 1, auto-scaling as written generates "W2"
      again and silently replaces the registered worker. */
  method AutoScaleCollision() returns (registry: WorkerRegistry, registered: WorkerNode, scaled: WorkerNode)
    ensures registered.id == "W2" && scaled.id == "W2" && registered != scaled
    ensures registry.workers == map["W2" := scaled]
    ensures registered !in registry.workers.Values
  {
    registry := new WorkerRegistry();
    registered := new WorkerNode("W2", 4, 8, 5);
    var outcome := registry.Register(registered);
    assert registry.workers == map["W2" := registered] && registry.NextSuffix() == 2;
    SmallAutoIds();
    scaled := registry.AutoScaleWorkerAsWritten();
    assert registry.workers == map["W2" := scaled];
    assert registry.workers.Values == {scaled};
  }

  /** The same registry with the corrected auto-scaling keeps "W2" and adds "W3". */
  method AutoScaleNoCollision() returns (registry: WorkerRegistry, registered: WorkerNode, scaled: WorkerNode)
    ensures registered.id == "W2" && scaled.id == "W3"
    ensures registry.workers == map["W2" := registered, "W3" := scaled]
  {
    registry := new WorkerRegistry();
    registered := new WorkerNode("W2", 4, 8, 5);
    var outcome := registry.Register(registered);
    assert registry.workers == map["W2" := registered] && registry.NextSuffix() == 2;
    ghost var before := registry.workers.Keys;
    ghost var suffix;
    scaled, suffix := registry.AutoScaleWorker();
    FirstFreeAfterW2(before, suffix);
  }
}
