/**
  The queue drain: tasks are taken off the queue in dequeue order and each is assigned to the
  fastest worker that can take it, until the queue is empty or the head cannot be placed, in
  which case it goes back to the tail of its tier and the drain stops. Stated on snapshots; the
  workers chosen are recorded as a sequence ks, one per placed task.
 */
module Draining {
  import opened Types
  import opened TaskModel
  import opened WorkerModel
  import opened TaskQueues
  import opened SystemModel

  /** The ids of the first k tasks of the order. */
  ghost function Head(o: seq<Task>, k: nat): set<TaskId>
    requires k <= |o|
  {
    set i | 0 <= i < k :: o[i].id
  }

  /** One round of the drain: the head of a is popped and assigned at now to k, a fastest worker
      that can take it, which gives b. */
  ghost predicate Placed(a: System, k: WorkerId, b: System, now: int) {
    && a.queue.Order() != [] && a.queue.Order()[0].id in a.info
    && Fastest(Pop(a), a.queue.Order()[0], k)
    && b == Assign(Pop(a), a.queue.Order()[0], k, now)
  }

  /** ss is the sequence of states of a drain from s that placed its i-th task on ks[i]: it starts
      at s, and each state follows from the one before by one round. */
  ghost predicate Trace(s: System, ks: seq<WorkerId>, ss: seq<System>, now: int) {
    && |ss| == |ks| + 1 && ss[0] == s
    && forall i {:trigger ks[i]} :: 0 <= i < |ks| ==> Placed(ss[i], ks[i], ss[i + 1], now)
  }

  /** The first |ks| queued tasks of s are ASSIGNED in s', the i-th to ks[i], started at now
      with their retry count kept; no other task changed; no task or worker was registered or
      removed, and no worker changed its status or capacity. */
  ghost predicate Settled(s: System, s': System, ks: seq<WorkerId>, now: int) {
    var o := s.queue.Order();
    var k := |ks|;
    && k <= |o|
    && s'.tasks == s.tasks && s'.workers == s.workers && s'.info.Keys == s.info.Keys
    && s'.ledgers.Keys == s.ledgers.Keys
    && (forall w :: w in s.ledgers ==> SameSetup(s.ledgers[w], s'.ledgers[w]))
    && (forall i :: 0 <= i < k ==>
          o[i].id in s.info
          && s'.info[o[i].id] == s.info[o[i].id].(status := Assigned, assignedTo := Some(ks[i]), startTime := now))
    && (forall id :: id in s.info && id !in Head(o, k) ==> s'.info[id] == s.info[id])
  }

  /** Part way through a drain: |ks| tasks placed on fastest workers along the trace ss, which
      ends in s', and the queue has lost exactly those tasks. */
  ghost predicate Partial(s: System, s': System, ks: seq<WorkerId>, ss: seq<System>, now: int) {
    && Settled(s, s', ks, now) && Trace(s, ks, ss, now)
    && s' == ss[|ks|] && s'.queue == Drop(s.queue, |ks|)
  }

  /** s' results from s by a drain that placed the first |ks| queued tasks on the workers ks at
      now, each on a fastest worker that could take it at that point of the trace ss, and either
      emptied the queue or stopped at the next task, which went back to the tail of its tier
      because no worker could take it. */
  ghost predicate Drained(s: System, s': System, ks: seq<WorkerId>, ss: seq<System>, now: int) {
    var o := s.queue.Order();
    var k := |ks|;
    && Settled(s, s', ks, now) && Trace(s, ks, ss, now)
    && (k < |o| ==>
          && o[k].id in ss[k].info && s' == Requeue(Pop(ss[k]), o[k])
          && s'.queue == Drop(s.queue, k + 1).Enqueue(o[k]) && !HasCandidate(s', o[k]))
    && (k == |o| ==> s' == ss[k] && s'.queue.Order() == [])
  }

  /** A drain starts with nothing placed. */
  lemma PartialStart(s: System, now: int)
    ensures Partial(s, s, [], [s], now)
  {
    assert Head(s.queue.Order(), 0) == {};
  }

  /** The queue of a partial drain is the rest of the original order. */
  lemma PartialQueue(s: System, s': System, ks: seq<WorkerId>, ss: seq<System>, now: int)
    requires s.queue.WellFormed() && Partial(s, s', ks, ss, now)
    ensures s'.queue.Order() == s.queue.Order()[|ks|..] && s'.queue.WellFormed()
  {
    DropIsSuffix(s.queue, |ks|);
  }

  /** One more round at the end of a trace extends it. */
  lemma TraceStep(s: System, ks: seq<WorkerId>, ss: seq<System>, w: WorkerId, b: System, now: int)
    requires Trace(s, ks, ss, now) && Placed(ss[|ks|], w, b, now)
    ensures Trace(s, ks + [w], ss + [b], now)
  {
    var ks', ss' := ks + [w], ss + [b];
    forall i | 0 <= i < |ks'| ensures Placed(ss'[i], ks'[i], ss'[i + 1], now) {
      if i < |ks| {
        assert ks'[i] == ks[i];
      }
    }
  }

  /** Assigning the next task of the order to w settles one more task. */
  lemma SettledStep(s: System, s': System, ks: seq<WorkerId>, w: WorkerId, now: int, x: Task, p: System)
    requires Settled(s, s', ks, now) && |ks| < |s.queue.Order()| && x == s.queue.Order()[|ks|]
    requires p.tasks == s'.tasks && p.workers == s'.workers && p.info == s'.info && p.ledgers == s'.ledgers
    requires x.id in p.info && w in p.ledgers && p.ledgers[w].CanAccommodate(x.cpu, x.memory)
    requires forall i :: 0 <= i < |ks| ==> s.queue.Order()[i].id != x.id
    ensures Settled(s, Assign(p, x, w, now), ks + [w], now)
  {
    var o := s.queue.Order();
    var s2 := Assign(p, x, w, now);
    AllocateEffect(p.ledgers[w], x);
    SettledInfoStep(s, s', ks, w, now, x, s2.info);
  }

  /** Marking the next task of the order ASSIGNED to w settles its record; the other records
      are as before. */
  lemma SettledInfoStep(s: System, s': System, ks: seq<WorkerId>, w: WorkerId, now: int, x: Task,
                        info: map<TaskId, TaskInfo>)
    requires Settled(s, s', ks, now) && |ks| < |s.queue.Order()| && x == s.queue.Order()[|ks|]
    requires forall i :: 0 <= i < |ks| ==> s.queue.Order()[i].id != x.id
    requires x.id in s.info && info == s'.info[x.id := s'.info[x.id].(status := Assigned, assignedTo := Some(w), startTime := now)]
    ensures forall i :: 0 <= i < |ks| + 1 ==>
      s.queue.Order()[i].id in s.info
      && info[s.queue.Order()[i].id] == s.info[s.queue.Order()[i].id].(status := Assigned, assignedTo := Some((ks + [w])[i]), startTime := now)
    ensures forall id :: id in s.info && id !in Head(s.queue.Order(), |ks| + 1) ==> info[id] == s.info[id]
  {
    var o := s.queue.Order();
    var k := |ks|;
    assert x.id !in Head(o, k);
    assert Head(o, k + 1) == Head(o, k) + {x.id};
    forall i | 0 <= i < k + 1
      ensures o[i].id in s.info
      ensures info[o[i].id] == s.info[o[i].id].(status := Assigned, assignedTo := Some((ks + [w])[i]), startTime := now)
    {
      if i < k {
        assert o[i].id != x.id;
      }
    }
  }

  /** The head of a partial drain is the next task of the original order; once popped, it is in
      the queue no more, so assigning it leaves the queue alone. */
  lemma PopLeaves(s: System, s': System, ks: seq<WorkerId>, ss: seq<System>, now: int)
    requires s.queue.WellFormed() && Partial(s, s', ks, ss, now) && s'.queue.Order() != []
    ensures |ks| < |s.queue.Order()| && s'.queue.Order()[0] == s.queue.Order()[|ks|]
    ensures Pop(s').queue == Drop(s.queue, |ks| + 1)
    ensures Pop(s').queue.Remove(s'.queue.Order()[0]).0 == Pop(s').queue
    ensures forall i :: 0 <= i < |ks| ==> s.queue.Order()[i].id != s'.queue.Order()[0].id
  {
    PartialQueue(s, s', ks, ss, now);
    assert s.queue.Order()[|ks|..] != [];
    DequeuedLeaves(s.queue, |ks|);
  }

  /** Popping the head and assigning it to a fastest worker that can take it places one more
      task. */
  lemma PartialStep(s: System, s': System, ks: seq<WorkerId>, ss: seq<System>, w: WorkerId, now: int)
    requires s.queue.WellFormed() && Partial(s, s', ks, ss, now) && s'.queue.Order() != []
    requires s'.queue.Order()[0].id in s'.info && Fastest(Pop(s'), s'.queue.Order()[0], w)
    ensures |ks| < |s.queue.Order()| && s'.queue.Order()[0] == s.queue.Order()[|ks|]
    ensures var s2 := Assign(Pop(s'), s'.queue.Order()[0], w, now);
      s2.queue == Pop(s').queue && Partial(s, s2, ks + [w], ss + [s2], now)
  {
    PopLeaves(s, s', ks, ss, now);
    var s2 := Assign(Pop(s'), s'.queue.Order()[0], w, now);
    PartialSettles(s, s', ks, ss, w, now);
    PartialTraces(s, s', ks, ss, w, now);
    PartialIntro(s, s2, ks + [w], ss + [s2], now);
  }

  /** The placement of the popped head settles one more task. */
  lemma PartialSettles(s: System, s': System, ks: seq<WorkerId>, ss: seq<System>, w: WorkerId, now: int)
    requires s.queue.WellFormed() && Partial(s, s', ks, ss, now) && s'.queue.Order() != []
    requires s'.queue.Order()[0].id in s'.info && Fastest(Pop(s'), s'.queue.Order()[0], w)
    ensures Settled(s, Assign(Pop(s'), s'.queue.Order()[0], w, now), ks + [w], now)
  {
    PopLeaves(s, s', ks, ss, now);
    SettledStep(s, s', ks, w, now, s'.queue.Order()[0], Pop(s'));
  }

  /** The placement of the popped head is one more round of the trace. */
  lemma PartialTraces(s: System, s': System, ks: seq<WorkerId>, ss: seq<System>, w: WorkerId, now: int)
    requires Partial(s, s', ks, ss, now) && s'.queue.Order() != []
    requires s'.queue.Order()[0].id in s'.info && Fastest(Pop(s'), s'.queue.Order()[0], w)
    ensures var s2 := Assign(Pop(s'), s'.queue.Order()[0], w, now);
      Trace(s, ks + [w], ss + [s2], now)
  {
    var s2 := Assign(Pop(s'), s'.queue.Order()[0], w, now);
    assert Placed(s', w, s2, now);
    TraceStep(s, ks, ss, w, s2, now);
  }

  /** The parts of a partial drain make one. */
  lemma PartialIntro(s: System, s': System, ks: seq<WorkerId>, ss: seq<System>, now: int)
    requires Settled(s, s', ks, now) && Trace(s, ks, ss, now)
    requires s' == ss[|ks|] && s'.queue == Drop(s.queue, |ks|)
    ensures Partial(s, s', ks, ss, now)
  {
  }

  /** A drain that finds the queue empty is complete. */
  lemma PartialEmpty(s: System, s': System, ks: seq<WorkerId>, ss: seq<System>, now: int)
    requires s.queue.WellFormed() && Partial(s, s', ks, ss, now) && s'.queue.Order() == []
    ensures Drained(s, s', ks, ss, now)
  {
    PartialQueue(s, s', ks, ss, now);
  }

  /** A drain whose head no worker can take puts it back and is complete. */
  lemma PartialBlocked(s: System, s': System, ks: seq<WorkerId>, ss: seq<System>, now: int)
    requires s.queue.WellFormed() && Partial(s, s', ks, ss, now) && s'.queue.Order() != []
    requires s'.queue.Order()[0].id in s'.info && s'.info[s'.queue.Order()[0].id].status == Queued
    requires !HasCandidate(Pop(s'), s'.queue.Order()[0])
    ensures Drained(s, Requeue(Pop(s'), s'.queue.Order()[0]), ks, ss, now)
  {
    PartialQueue(s, s', ks, ss, now);
    var x := s'.queue.Order()[0];
    assert x == s.queue.Order()[|ks|];
    assert Requeue(Pop(s'), x).info == s'.info;
  }
}
