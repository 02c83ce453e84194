/**
  The completion sweep: every running task whose estimated execution time has elapsed
  completes and leaves its worker. Stated on snapshots, in its own module.
 */
module SweepModel {
  import opened Types
  import opened TaskModel
  import opened WorkerModel
  import opened SystemModel

  /** The task is ASSIGNED, started, and its estimated execution time has elapsed at now. */
  ghost predicate Due(s: System, id: TaskId, now: int)
    requires id in s.info && id in s.tasks
  {
    var i := s.info[id];
    i.status == Assigned && i.startTime >= 0 && now - i.startTime >= s.tasks[id].executionTime
  }

  /** The due tasks assigned to one of the workers in W. */
  ghost function DueOn(s: System, now: int, W: set<WorkerId>): set<TaskId> {
    set id | id in s.tasks && id in s.info && Due(s, id, now)
                && s.info[id].assignedTo.Some? && s.info[id].assignedTo.value in W
  }

  /** The running tasks of a ledger that are not in C. */
  ghost function Rest(l: Ledger, C: set<TaskId>): map<TaskId, Task> {
    map j | j in l.running && j !in C :: l.running[j]
  }

  /** A ledger without the tasks in C, charged exactly for the rest. */
  ghost function Without(l: Ledger, C: set<TaskId>): Ledger {
    l.(running := Rest(l, C), usedCpu := Total(Rest(l, C), Cpu), usedMemory := Total(Rest(l, C), Memory))
  }

  /** Every task in C COMPLETED and gone from the worker it ran on. */
  ghost function Finish(s: System, C: set<TaskId>): System {
    s.(info := MarkCompleted(s.info, C), ledgers := map k | k in s.ledgers :: Without(s.ledgers[k], C))
  }

  /** The task records with those in C marked COMPLETED. */
  ghost function MarkCompleted(info: map<TaskId, TaskInfo>, C: set<TaskId>): map<TaskId, TaskInfo> {
    map id | id in info :: if id in C then info[id].(status := Completed) else info[id]
  }

  /** The state once every due task has completed. */
  ghost function Sweep(s: System, now: int): System {
    Finish(s, DueOn(s, now, s.ledgers.Keys))
  }

  /** On a sound ledger, removing nothing changes nothing. */
  lemma WithoutNothing(l: Ledger)
    requires Sound(l)
    ensures Without(l, {}) == l
  {
    assert Rest(l, {}) == l.running;
  }

  /** Releasing a running task not yet in C from a partial sweep extends it by that task. */
  lemma WithoutStep(l: Ledger, C: set<TaskId>, t: Task)
    requires t.id in l.running && l.running[t.id] == t && t.id !in C
    ensures Without(l, C).Release(t) == Without(l, C + {t.id})
  {
    var rest := Rest(l, C);
    assert rest - {t.id} == Rest(l, C + {t.id});
    TotalRemove(rest, t.id, Cpu);
    TotalRemove(rest, t.id, Memory);
  }

  /** A task a worker does not run does not change its partial sweep. */
  lemma WithoutOther(l: Ledger, C: set<TaskId>, id: TaskId)
    requires id !in l.running
    ensures Without(l, C + {id}) == Without(l, C)
  {
    assert Rest(l, C) == Rest(l, C + {id});
  }

  /** Finishing nothing changes nothing on a state whose ledgers are sound. */
  lemma FinishNothing(s: System)
    requires LedgersSound(s)
    ensures Finish(s, {}) == s
  {
    var f := Finish(s, {});
    forall k | k in s.ledgers ensures f.ledgers[k] == s.ledgers[k] {
      assert Sound(s.ledgers[k]);
      WithoutNothing(s.ledgers[k]);
    }
    MapsEqual(f.ledgers, s.ledgers);
    MapsEqual(f.info, s.info);
  }

  /** Two maps with the same keys and the same value at every key are equal. */
  lemma MapsEqual<K, V>(a: map<K, V>, b: map<K, V>)
    requires a.Keys == b.Keys && forall k :: k in a ==> a[k] == b[k]
    ensures a == b
  {
  }

  /** Completing one more running task extends a partial sweep. */
  lemma FinishStep(s: System, C: set<TaskId>, t: Task, k: WorkerId)
    requires Valid(s) && k in s.ledgers && t.id in s.ledgers[k].running && s.ledgers[k].running[t.id] == t
    requires t.id !in C
    ensures t.id in Finish(s, C).info
    ensures Complete(Finish(s, C), t, k) == Finish(s, C + {t.id})
  {
    RunningEntry(s, {}, k, t.id);
    RunsOnlyOn(s, {}, k, t.id);
    FinishStepLedgers(s, C, t, k);
    FinishStepInfo(s, C, t, k);
  }

  lemma FinishStepLedgers(s: System, C: set<TaskId>, t: Task, k: WorkerId)
    requires k in s.ledgers && t.id in s.ledgers[k].running && s.ledgers[k].running[t.id] == t
    requires forall k' :: k' in s.ledgers && t.id in s.ledgers[k'].running ==> k' == k
    requires t.id !in C && t.id in s.info
    ensures Complete(Finish(s, C), t, k).ledgers == Finish(s, C + {t.id}).ledgers
  {
    var a := Finish(s, C).ledgers;
    var b := Finish(s, C + {t.id}).ledgers;
    FinishOwnLedger(s, C, t, k);
    forall k' | k' in a && k' != k ensures a[k'] == b[k'] {
      FinishOtherLedger(s, C, t.id, k');
    }
    UpdateMatches(a, b, k, a[k].Release(t));
  }

  /** Updating one key of a map that agrees with another everywhere else makes them equal. */
  lemma UpdateMatches<K, V>(a: map<K, V>, b: map<K, V>, k: K, v: V)
    requires k in a && a.Keys == b.Keys && b[k] == v
    requires forall j :: j in a && j != k ==> a[j] == b[j]
    ensures a[k := v] == b
  {
  }

  lemma FinishOwnLedger(s: System, C: set<TaskId>, t: Task, k: WorkerId)
    requires k in s.ledgers && t.id in s.ledgers[k].running && s.ledgers[k].running[t.id] == t && t.id !in C
    ensures Finish(s, C).ledgers[k].Release(t) == Finish(s, C + {t.id}).ledgers[k]
  {
    WithoutStep(s.ledgers[k], C, t);
  }

  lemma FinishOtherLedger(s: System, C: set<TaskId>, id: TaskId, k: WorkerId)
    requires k in s.ledgers && id !in s.ledgers[k].running
    ensures Finish(s, C + {id}).ledgers[k] == Finish(s, C).ledgers[k]
  {
    WithoutOther(s.ledgers[k], C, id);
  }

  lemma FinishStepInfo(s: System, C: set<TaskId>, t: Task, k: WorkerId)
    requires k in s.ledgers && t.id !in C && t.id in s.info
    ensures Complete(Finish(s, C), t, k).info == Finish(s, C + {t.id}).info
  {
    MarkOneMore(s.info, C, t.id);
  }

  /** Marking one more record COMPLETED is an update of that record. */
  lemma MarkOneMore(info: map<TaskId, TaskInfo>, C: set<TaskId>, id: TaskId)
    requires id in info && id !in C
    ensures MarkCompleted(info, C)[id := info[id].(status := Completed)] == MarkCompleted(info, C + {id})
  {
    var c, g := MarkCompleted(info, C)[id := info[id].(status := Completed)], MarkCompleted(info, C + {id});
    assert c.Keys == info.Keys == g.Keys;
    MapsEqual(c, g);
  }

  /** Completing any set of running tasks keeps the scheduler valid. */
  lemma {:induction false} FinishValid(s: System, C: set<TaskId>)
    requires Valid(s)
    requires forall id :: id in C ==> exists k :: k in s.ledgers && id in s.ledgers[k].running
    ensures Valid(Finish(s, C))
    decreases |C|
  {
    if C == {} {
      FinishNothing(s);
    } else {
      var id :| id in C;
      var C' := C - {id};
      assert C' + {id} == C;
      var k :| k in s.ledgers && id in s.ledgers[k].running;
      RunningEntry(s, {}, k, id);
      var t := s.ledgers[k].running[id];
      FinishValid(s, C');
      FinishStep(s, C', t, k);
      var f := Finish(s, C');
      assert f.ledgers[k] == Without(s.ledgers[k], C');
      assert f.ledgers[k].running[id] == t;
      CompleteKeepsValid(f, t, k);
    }
  }

  /** Every due task runs on the active worker it is assigned to. */
  lemma DueIsRunning(s: System, now: int, id: TaskId)
    requires Valid(s) && id in DueOn(s, now, s.ledgers.Keys)
    ensures var k := s.info[id].assignedTo.value;
      k in s.ledgers && s.ledgers[k].status == Active && id in s.ledgers[k].running && s.ledgers[k].running[id] == s.tasks[id]
  {
    assert Consistent(s, id);
  }

  /** Only active workers hold due tasks, so sweeping the active workers sweeps them all. */
  lemma DueOnActive(s: System, now: int, W: set<WorkerId>)
    requires Valid(s) && W <= s.ledgers.Keys
    requires forall k :: k in s.ledgers && s.ledgers[k].status == Active ==> k in W
    ensures DueOn(s, now, W) == DueOn(s, now, s.ledgers.Keys)
  {
    forall id | id in DueOn(s, now, s.ledgers.Keys) ensures id in DueOn(s, now, W) {
      DueIsRunning(s, now, id);
    }
  }

  /** The due tasks assigned to worker k are exactly its running tasks that are due. */
  lemma DueOnOne(s: System, now: int, k: WorkerId)
    requires Valid(s) && k in s.ledgers
    ensures forall j :: j in s.ledgers[k].running ==>
              j in s.tasks && j in s.info && s.tasks[j] == s.ledgers[k].running[j] && (j in DueOn(s, now, {k}) <==> Due(s, j, now))
    ensures forall j :: j in DueOn(s, now, {k}) ==> j in s.ledgers[k].running
  {
    forall j | j in s.ledgers[k].running
      ensures j in s.tasks && j in s.info && s.tasks[j] == s.ledgers[k].running[j] && (j in DueOn(s, now, {k}) <==> Due(s, j, now))
    {
      RunningEntry(s, {}, k, j);
    }
    forall j | j in DueOn(s, now, {k}) ensures j in s.ledgers[k].running {
      assert Consistent(s, j);
    }
  }

  /** Sweeping some workers other than k leaves k's ledger and k's tasks as they were. */
  lemma FinishUntouched(s: System, now: int, P: set<WorkerId>, k: WorkerId)
    requires Valid(s) && k in s.ledgers && k !in P
    ensures Finish(s, DueOn(s, now, P)).ledgers[k] == s.ledgers[k]
    ensures forall j :: j in s.ledgers[k].running ==>
              j in Finish(s, DueOn(s, now, P)).info && Finish(s, DueOn(s, now, P)).info[j] == s.info[j]
  {
    var C := DueOn(s, now, P);
    var l := s.ledgers[k];
    forall j | j in l.running ensures j !in C && j in s.info {
      RunningEntry(s, {}, k, j);
    }
    assert Rest(l, C) == Rest(l, {});
    assert Sound(l);
    WithoutNothing(l);
  }

  /** Sweeping the workers of P and then those of Q is sweeping those of P + Q. */
  lemma DueOnUnion(s: System, now: int, P: set<WorkerId>, Q: set<WorkerId>)
    ensures DueOn(s, now, P + Q) == DueOn(s, now, P) + DueOn(s, now, Q)
  {
  }

  /** The sweep keeps the scheduler valid, completes exactly the due tasks, takes them off their
      workers, leaves every other task as it was, and leaves nothing due behind. */
  lemma SweepEffect(s: System, now: int)
    requires Valid(s)
    ensures Valid(Sweep(s, now))
    ensures Sweep(s, now).tasks == s.tasks && Sweep(s, now).workers == s.workers && Sweep(s, now).queue == s.queue
    ensures forall id :: id in s.info ==>
              Sweep(s, now).info[id] == (if id in DueOn(s, now, s.ledgers.Keys) then s.info[id].(status := Completed) else s.info[id])
    ensures forall k, id :: k in s.ledgers && id in Sweep(s, now).ledgers[k].running ==>
              id in s.ledgers[k].running && id !in DueOn(s, now, s.ledgers.Keys)
    ensures forall k :: k in s.ledgers ==> Sweep(s, now).ledgers[k].status == s.ledgers[k].status
    ensures DueOn(Sweep(s, now), now, s.ledgers.Keys) == {}
  {
    SweepKeepsValid(s, now);
    SweepClearsDue(s, now);
  }

  lemma SweepKeepsValid(s: System, now: int)
    requires Valid(s)
    ensures Valid(Sweep(s, now))
  {
    var C := DueOn(s, now, s.ledgers.Keys);
    forall id | id in C ensures exists k :: k in s.ledgers && id in s.ledgers[k].running {
      DueIsRunning(s, now, id);
    }
    FinishValid(s, C);
  }

  lemma SweepClearsDue(s: System, now: int)
    ensures DueOn(Sweep(s, now), now, s.ledgers.Keys) == {}
  {
    var C := DueOn(s, now, s.ledgers.Keys);
    var s' := Sweep(s, now);
    forall id | id in s'.tasks && id in s'.info ensures id !in DueOn(s', now, s.ledgers.Keys) {
      assert s'.info[id] == if id in C then s.info[id].(status := Completed) else s.info[id];
    }
  }

  /** Sweeping twice at the same time is sweeping once. */
  lemma SweepIdempotent(s: System, now: int)
    requires Valid(s)
    ensures Sweep(Sweep(s, now), now) == Sweep(s, now)
  {
    SweepEffect(s, now);
    var s' := Sweep(s, now);
    assert s'.ledgers.Keys == s.ledgers.Keys;
    assert Valid(s');
    FinishNothing(s');
  }
}
