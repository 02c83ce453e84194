/**
  The three-tier priority queue: one first-in-first-out sequence per priority, polled in
  strict priority order. Viewed as a whole, the queue is a single FIFO whose order is
  HIGH, then MEDIUM, then LOW.
 */
module TaskQueues {
  import opened Types
  import opened TaskModel

  /** HIGH = 0 < MEDIUM = 1 < LOW = 2: a smaller rank is served first. */
  function Rank(p: Priority): nat {
    match p
    case High => 0
    case Medium => 1
    case Low => 2
  }

  /** Some element of s carries the id. */
  predicate HasId(s: seq<Task>, id: TaskId) {
    exists i :: 0 <= i < |s| && s[i].id == id
  }

  /** No id occurs twice in s. */
  ghost predicate IdsUnique(s: seq<Task>) {
    forall i, j :: 0 <= i < j < |s| ==> s[i].id != s[j].id
  }

  /** Drops the first element with the given id, as a FIFO's remove(Object) does under id equality. */
  function RemoveFirst(s: seq<Task>, id: TaskId): seq<Task> {
    if s == [] then []
    else if s[0].id == id then s[1..]
    else [s[0]] + RemoveFirst(s[1..], id)
  }

  /** The position of the first element carrying the id. */
  function FirstIndexOf(s: seq<Task>, id: TaskId): (i: nat)
    requires HasId(s, id)
    ensures i < |s| && s[i].id == id
    ensures forall j :: 0 <= j < i ==> s[j].id != id
  {
    if s[0].id == id then 0
    else
      assert HasId(s[1..], id) by {
        var k :| 0 <= k < |s| && s[k].id == id;
        assert s[1..][k - 1].id == id;
      }
      1 + FirstIndexOf(s[1..], id)
  }

  /** When position i holds the first occurrence of the id, RemoveFirst deletes position i. */
  lemma {:induction false} RemoveFirstAt(s: seq<Task>, id: TaskId, i: nat)
    requires i < |s| && s[i].id == id && forall j :: 0 <= j < i ==> s[j].id != id
    ensures RemoveFirst(s, id) == s[..i] + s[i + 1..]
  {
    if i > 0 {
      var t := s[1..];
      RemoveFirstAt(t, id, i - 1);
      assert [s[0]] + t[..i - 1] == s[..i];
      assert t[i..] == s[i + 1..];
    }
  }

  /** When no element carries the id, RemoveFirst changes nothing. */
  lemma {:induction false} RemoveFirstMiss(s: seq<Task>, id: TaskId)
    requires forall k :: 0 <= k < |s| ==> s[k].id != id
    ensures RemoveFirst(s, id) == s
  {
    if s != [] {
      RemoveFirstMiss(s[1..], id);
      assert [s[0]] + s[1..] == s;
    }
  }

  datatype Tiers = Tiers(high: seq<Task>, medium: seq<Task>, low: seq<Task>)
  {
    /** The FIFO of one priority level. */
    function Tier(p: Priority): seq<Task> {
      match p
      case High => high
      case Medium => medium
      case Low => low
    }

    function WithTier(p: Priority, s: seq<Task>): (r: Tiers)
      ensures r.Tier(p) == s
      ensures forall q :: q != p ==> r.Tier(q) == Tier(q)
    {
      match p
      case High => this.(high := s)
      case Medium => this.(medium := s)
      case Low => this.(low := s)
    }

    /** The order in which successive dequeues hand out the queued tasks. */
    function Order(): seq<Task> {
      high + medium + low
    }

    /** The sum of the three tier lengths. */
    function Size(): (n: nat)
      ensures n == |Order()|
    {
      |high| + |medium| + |low|
    }

    /** Each tier holds only tasks of its own priority, and no id is queued twice. */
    ghost predicate WellFormed() {
      && (forall p, i :: 0 <= i < |Tier(p)| ==> Tier(p)[i].priority == p)
      && IdsUnique(Order())
    }

    /** Appends the task at the tail of the tier of its priority. */
    function Enqueue(t: Task): (r: Tiers)
      ensures r.Tier(t.priority) == Tier(t.priority) + [t]
      ensures forall p :: p != t.priority ==> r.Tier(p) == Tier(p)
      ensures r.Size() == Size() + 1
      ensures multiset(r.Order()) == multiset(Order()) + multiset{t}
    {
      WithTier(t.priority, Tier(t.priority) + [t])
    }

    /** Polls HIGH, then MEDIUM, then LOW; empty when all three are empty. Seen as one FIFO,
        this takes the head of the whole order. */
    function Dequeue(): (r: (Option<Task>, Tiers))
      ensures r.0.None? <==> Order() == []
      ensures r.0.None? ==> r.1 == this
      ensures r.0.Some? ==> r.0.value == Order()[0] && r.1.Order() == Order()[1..]
    {
      if high != [] then
        assert Order()[1..] == high[1..] + medium + low;
        (Some(high[0]), this.(high := high[1..]))
      else if medium != [] then
        assert Order() == medium + low;
        (Some(medium[0]), this.(medium := medium[1..]))
      else if low != [] then
        (Some(low[0]), this.(low := low[1..]))
      else
        (None, this)
    }

    /** Removes the first task with t's id from t's own tier only, reporting whether one was found. */
    function Remove(t: Task): (r: (Tiers, bool))
      ensures r.1 <==> HasId(Tier(t.priority), t.id)
      ensures !r.1 ==> r.0 == this
      ensures r.1 ==> r.0.Size() == Size() - 1
      ensures forall p :: p != t.priority ==> r.0.Tier(p) == Tier(p)
    {
      var s := Tier(t.priority);
      if HasId(s, t.id) then
        RemoveFirstAt(s, t.id, FirstIndexOf(s, t.id));
        (WithTier(t.priority, RemoveFirst(s, t.id)), true)
      else (this, false)
    }
  }

  const EmptyTiers := Tiers([], [], [])

  /** The queue after k successive dequeues. */
  function Drop(q: Tiers, k: nat): Tiers {
    if k == 0 then q else Drop(q, k - 1).Dequeue().1
  }

  /** The tasks successive dequeues hand out until the queue is empty. */
  function Drain(q: Tiers): seq<Task>
    decreases q.Size()
  {
    match q.Dequeue()
    case (None, _) => []
    case (Some(x), q') => [x] + Drain(q')
  }

  /** The tasks queued ahead of the tail of tier p, and those behind it. */
  function Prefix(q: Tiers, p: Priority): seq<Task> {
    match p
    case High => q.high
    case Medium => q.high + q.medium
    case Low => q.high + q.medium + q.low
  }

  function Suffix(q: Tiers, p: Priority): seq<Task> {
    match p
    case High => q.medium + q.low
    case Medium => q.low
    case Low => []
  }

  /** Enqueue inserts the task right behind the last task of its own tier. */
  lemma EnqueueInsertsAtTierTail(q: Tiers, t: Task)
    ensures q.Enqueue(t).Order() == Prefix(q, t.priority) + [t] + Suffix(q, t.priority)
    ensures Prefix(q, t.priority) + Suffix(q, t.priority) == q.Order()
    ensures forall x :: x in q.Tier(t.priority) ==> x in Prefix(q, t.priority)
  {
    EnqueueSplitsOrder(q, t);
    PrefixThenSuffix(q, t.priority);
  }

  /** The order after Enqueue is the prefix, the task, then the suffix. */
  lemma EnqueueSplitsOrder(q: Tiers, t: Task)
    ensures q.Enqueue(t).Order() == Prefix(q, t.priority) + [t] + Suffix(q, t.priority)
  {
    var r := q.Enqueue(t);
    match t.priority
    case High =>
      assert r == q.(high := q.high + [t]);
      Regroup(q.high, [t], q.medium, q.low);
    case Medium =>
      assert r == q.(medium := q.medium + [t]);
      Regroup(q.high, q.medium, [t], q.low);
    case Low =>
      assert r == q.(low := q.low + [t]);
      Regroup(q.high, q.medium, q.low, [t]);
  }

  /** Concatenation regrouped as the three cases of Enqueue need it. */
  lemma Regroup<T>(a: seq<T>, b: seq<T>, c: seq<T>, d: seq<T>)
    ensures a + b + c + d == a + b + (c + d)
    ensures a + (b + c) + d == a + b + c + d
    ensures a + b + (c + d) == a + b + c + d + []
  {
  }

  /** The prefix and the suffix of a tier make up the whole order. */
  lemma PrefixThenSuffix(q: Tiers, p: Priority)
    ensures Prefix(q, p) + Suffix(q, p) == q.Order()
  {
    match p
    case High => assert q.Order() == q.high + (q.medium + q.low);
    case Medium =>
    case Low => assert q.Order() + [] == q.Order();
  }

  /** Enqueue keeps the tiers well formed when the id is not queued yet. */
  lemma EnqueueWellFormed(q: Tiers, t: Task)
    requires q.WellFormed() && !HasId(q.Order(), t.id)
    ensures q.Enqueue(t).WellFormed()
  {
    EnqueueInsertsAtTierTail(q, t);
    InsertKeepsIdsUnique(Prefix(q, t.priority), t, Suffix(q, t.priority));
    var r := q.Enqueue(t);
    forall p, i | 0 <= i < |r.Tier(p)| ensures r.Tier(p)[i].priority == p {
      if p == t.priority && i < |q.Tier(p)| {
        assert r.Tier(p)[i] == q.Tier(p)[i];
      }
    }
  }

  /** Inserting an element with a new id into an id-unique sequence keeps it id-unique. */
  lemma InsertKeepsIdsUnique(a: seq<Task>, t: Task, b: seq<Task>)
    requires IdsUnique(a + b) && !HasId(a + b, t.id)
    ensures IdsUnique(a + [t] + b)
  {
    var o, ro := a + b, a + [t] + b;
    var n := |a|;
    forall i, j | 0 <= i < j < |ro| ensures ro[i].id != ro[j].id {
      var ii := if i < n then i else i - 1;
      var jj := if j < n then j else j - 1;
      if i != n {
        assert ro[i] == o[ii];
      }
      if j != n {
        assert ro[j] == o[jj];
      }
    }
  }

  /** Where tier p starts in the order. */
  function Offset(q: Tiers, p: Priority): nat {
    match p
    case High => 0
    case Medium => |q.high|
    case Low => |q.high| + |q.medium|
  }

  /** Tier p occupies the positions of the order from its offset on. */
  lemma TierInOrder(q: Tiers, p: Priority)
    ensures Offset(q, p) + |q.Tier(p)| <= |q.Order()|
    ensures forall i :: 0 <= i < |q.Tier(p)| ==> q.Order()[Offset(q, p) + i] == q.Tier(p)[i]
  {
  }

  /** In a well-formed queue a task sits in the tier of its own priority. */
  lemma InOwnTier(q: Tiers, x: Task)
    requires q.WellFormed() && x in q.Order()
    ensures x in q.Tier(x.priority)
  {
    var k :| 0 <= k < |q.Order()| && q.Order()[k] == x;
    if k < |q.high| {
      assert q.Tier(High)[k] == x;
    } else if k < |q.high| + |q.medium| {
      assert q.Tier(Medium)[k - |q.high|] == x;
    } else {
      assert q.Tier(Low)[k - |q.high| - |q.medium|] == x;
    }
  }

  /** Dequeue keeps the tiers well formed. */
  lemma DequeueWellFormed(q: Tiers)
    requires q.WellFormed()
    ensures q.Dequeue().1.WellFormed()
  {
    var r := q.Dequeue().1;
    if q.Dequeue().0.Some? {
      forall i, j | 0 <= i < j < |r.Order()| ensures r.Order()[i].id != r.Order()[j].id {
        assert r.Order()[i] == q.Order()[i + 1] && r.Order()[j] == q.Order()[j + 1];
      }
      forall p, i | 0 <= i < |r.Tier(p)| ensures r.Tier(p)[i].priority == p {
        if r.Tier(p) != q.Tier(p) {
          assert r.Tier(p) == q.Tier(p)[1..];
          assert r.Tier(p)[i] == q.Tier(p)[i + 1];
        }
      }
    }
  }

  /** The dequeued task has the highest priority among all queued tasks. */
  lemma DequeueTakesHighestPriority(q: Tiers)
    requires q.WellFormed() && q.Dequeue().0.Some?
    ensures forall y :: y in q.Order() ==> Rank(q.Dequeue().0.value.priority) <= Rank(y.priority)
  {
    var x := q.Dequeue().0.value;
    if q.high != [] {
      assert q.Tier(High)[0] == x;
    } else if q.medium != [] {
      assert q.Tier(Medium)[0] == x;
      forall y | y in q.Order() ensures Rank(x.priority) <= Rank(y.priority) {
        InOwnTier(q, y);
      }
    } else {
      assert q.Tier(Low)[0] == x;
    }
  }

  /** Successive dequeues hand out exactly the queue's order. */
  lemma {:induction false} DrainIsOrder(q: Tiers)
    ensures Drain(q) == q.Order()
    decreases q.Size()
  {
    match q.Dequeue()
    case (None, _) =>
    case (Some(x), q') =>
      DrainIsOrder(q');
  }

  /** k dequeues take the first k tasks of the order off the queue. */
  lemma {:induction false} DropIsSuffix(q: Tiers, k: nat)
    requires k <= q.Size()
    ensures Drop(q, k).Order() == q.Order()[k..]
    ensures q.WellFormed() ==> Drop(q, k).WellFormed()
  {
    if k > 0 {
      DropIsSuffix(q, k - 1);
      if q.WellFormed() {
        DequeueWellFormed(Drop(q, k - 1));
      }
      assert q.Order()[k - 1..][1..] == q.Order()[k..];
    }
  }

  /** Once the k-th task of a well-formed queue is dequeued, no task left has its id, so
      removing it changes nothing; no task ahead of it had its id either. */
  lemma DequeuedLeaves(q: Tiers, k: nat)
    requires q.WellFormed() && k < q.Size()
    ensures Drop(q, k).Order() != [] && Drop(q, k).Order()[0] == q.Order()[k]
    ensures Drop(q, k + 1).Remove(q.Order()[k]).0 == Drop(q, k + 1)
    ensures forall i :: 0 <= i < k ==> q.Order()[i].id != q.Order()[k].id
  {
    var o, x := q.Order(), q.Order()[k];
    DropIsSuffix(q, k);
    DropIsSuffix(q, k + 1);
    var po := Drop(q, k + 1).Order();
    assert !HasId(po, x.id) by {
      forall i | 0 <= i < |po| ensures po[i].id != x.id {
        assert po[i] == o[k + 1 + i];
      }
    }
    RemoveEffect(Drop(q, k + 1), x);
  }

  /** FIFO within a tier: a task already waiting at t's priority is handed out before t,
      whatever waits at other priorities. */
  lemma FifoWithinTier(q: Tiers, x: Task, t: Task)
    requires x in q.Tier(t.priority)
    ensures exists i, j :: 0 <= i < j < |Drain(q.Enqueue(t))|
                           && Drain(q.Enqueue(t))[i] == x && Drain(q.Enqueue(t))[j] == t
  {
    var e := q.Enqueue(t);
    DrainIsOrder(e);
    EnqueueInsertsAtTierTail(q, t);
    var before := Prefix(q, t.priority);
    var i :| 0 <= i < |before| && before[i] == x;
    AroundInserted(before, t, Suffix(q, t.priority), i);
    assert Drain(e)[i] == x && Drain(e)[|before|] == t;
  }

  /** In a + [t] + b, position i < |a| holds a[i] and position |a| holds t. */
  lemma AroundInserted<T>(a: seq<T>, t: T, b: seq<T>, i: nat)
    requires i < |a|
    ensures |a| < |a + [t] + b| && (a + [t] + b)[i] == a[i] && (a + [t] + b)[|a|] == t
  {
  }

  /** Removing a queued task takes exactly that task out of the order; removing a task whose
      id is not queued changes nothing; either way the tiers stay well formed. */
  lemma RemoveEffect(q: Tiers, t: Task)
    requires q.WellFormed()
    ensures q.Remove(t).0.WellFormed()
    ensures !HasId(q.Order(), t.id) ==> q.Remove(t) == (q, false)
    ensures t in q.Order() ==> q.Remove(t).1
    ensures t in q.Order() ==> forall x :: x in q.Remove(t).0.Order() <==> x in q.Order() && x != t
  {
    var s := q.Tier(t.priority);
    if t in q.Order() {
      InOwnTier(q, t);
      var k :| 0 <= k < |s| && s[k] == t;
      assert s[k].id == t.id;
    }
    if HasId(s, t.id) {
      RemoveHit(q, t);
    }
    if t in q.Order() {
      OnlyWithId(q, t);
    }
  }

  /** When t's tier holds its id, Remove deletes the first such entry from the order, which
      then holds no task with that id. */
  lemma RemoveHit(q: Tiers, t: Task)
    requires q.WellFormed() && HasId(q.Tier(t.priority), t.id)
    ensures q.Remove(t).1 && q.Remove(t).0.WellFormed() && HasId(q.Order(), t.id)
    ensures forall x :: x in q.Remove(t).0.Order() <==> x in q.Order() && x.id != t.id
  {
    var p := t.priority;
    var s := q.Tier(p);
    var i := FirstIndexOf(s, t.id);
    RemoveFirstAt(s, t.id, i);
    var r := q.WithTier(p, s[..i] + s[i + 1..]);
    assert q.Remove(t).0 == r;
    RemoveAtIndex(q, p, i);
    HitInOrder(q, p, i);
  }

  /** The task at position i of tier p is also in the order. */
  lemma HitInOrder(q: Tiers, p: Priority, i: nat)
    requires i < |q.Tier(p)|
    ensures HasId(q.Order(), q.Tier(p)[i].id)
  {
    TierInOrder(q, p);
    assert q.Order()[Offset(q, p) + i] == q.Tier(p)[i];
  }

  /** In a well-formed queue holding t, t is the only queued task with its id. */
  lemma OnlyWithId(q: Tiers, t: Task)
    requires q.WellFormed() && t in q.Order()
    ensures forall x :: x in q.Order() && x.id == t.id ==> x == t
  {
    forall x | x in q.Order() && x.id == t.id ensures x == t {
      SameIdSameTask(q.Order(), x, t);
    }
  }

  /** Two tasks with the same id in an id-unique sequence are one task. */
  lemma SameIdSameTask(o: seq<Task>, x: Task, y: Task)
    requires IdsUnique(o) && x in o && y in o && x.id == y.id
    ensures x == y
  {
    var i :| 0 <= i < |o| && o[i] == x;
    var j :| 0 <= j < |o| && o[j] == y;
    assert i == j;
  }

  /** Deleting position i of tier p deletes position Offset + i of the order. */
  lemma DeleteFromTier(q: Tiers, p: Priority, i: nat)
    requires i < |q.Tier(p)|
    ensures var n := Offset(q, p) + i;
      && n < |q.Order()| && q.Order()[n] == q.Tier(p)[i]
      && q.WithTier(p, q.Tier(p)[..i] + q.Tier(p)[i + 1..]).Order() == q.Order()[..n] + q.Order()[n + 1..]
  {
    var s := q.Tier(p);
    var r := q.WithTier(p, s[..i] + s[i + 1..]);
    match p
    case High =>
      assert q.Order() == [] + q.high + (q.medium + q.low);
      assert r.Order() == [] + (s[..i] + s[i + 1..]) + (q.medium + q.low);
      DeleteInMiddle([], q.high, q.medium + q.low, i);
    case Medium =>
      assert r.Order() == q.high + (s[..i] + s[i + 1..]) + q.low;
      DeleteInMiddle(q.high, q.medium, q.low, i);
    case Low =>
      assert q.Order() == q.high + q.medium + q.low + [];
      assert r.Order() == q.high + q.medium + (s[..i] + s[i + 1..]) + [];
      DeleteInMiddle(q.high + q.medium, q.low, [], i);
  }

  /** Deleting position i of the middle part deletes position |a| + i of the whole. */
  lemma DeleteInMiddle<T>(a: seq<T>, s: seq<T>, b: seq<T>, i: nat)
    requires i < |s|
    ensures var o, n := a + s + b, |a| + i;
      && n < |o| && o[n] == s[i] && a + (s[..i] + s[i + 1..]) + b == o[..n] + o[n + 1..]
  {
    var o, n := a + s + b, |a| + i;
    assert o[..n] == a + s[..i];
    assert o[n + 1..] == s[i + 1..] + b;
  }

  /** Deleting position i of tier p keeps the queue well formed and removes exactly that
      element's id. */
  lemma RemoveAtIndex(q: Tiers, p: Priority, i: nat)
    requires q.WellFormed() && i < |q.Tier(p)|
    ensures var r := q.WithTier(p, q.Tier(p)[..i] + q.Tier(p)[i + 1..]);
      && r.WellFormed()
      && forall x :: x in r.Order() <==> x in q.Order() && x.id != q.Tier(p)[i].id
  {
    DeleteFromTier(q, p, i);
    DeleteIndexUnique(q.Order(), Offset(q, p) + i);
    DeleteKeepsTiers(q, p, i);
  }

  /** Deleting position i of tier p leaves every tier holding only tasks of its own priority. */
  lemma DeleteKeepsTiers(q: Tiers, p: Priority, i: nat)
    requires i < |q.Tier(p)| && forall p', k :: 0 <= k < |q.Tier(p')| ==> q.Tier(p')[k].priority == p'
    ensures var r := q.WithTier(p, q.Tier(p)[..i] + q.Tier(p)[i + 1..]);
      forall p', k :: 0 <= k < |r.Tier(p')| ==> r.Tier(p')[k].priority == p'
  {
    var s := q.Tier(p);
    var r := q.WithTier(p, s[..i] + s[i + 1..]);
    forall p', k | 0 <= k < |r.Tier(p')| ensures r.Tier(p')[k].priority == p' {
      if p' == p {
        var m := if k < i then k else k + 1;
        assert r.Tier(p')[k] == q.Tier(p)[m];
      }
    }
  }

  /** Deleting one position of an id-unique sequence keeps it id-unique and removes exactly
      that position's id. */
  lemma DeleteIndexUnique(o: seq<Task>, n: nat)
    requires IdsUnique(o) && n < |o|
    ensures IdsUnique(o[..n] + o[n + 1..])
    ensures forall x :: x in o[..n] + o[n + 1..] <==> x in o && x.id != o[n].id
  {
    var d := o[..n] + o[n + 1..];
    forall i, j | 0 <= i < j < |d| ensures d[i].id != d[j].id {
      var ii := if i < n then i else i + 1;
      var jj := if j < n then j else j + 1;
      assert d[i] == o[ii] && d[j] == o[jj];
    }
    forall x ensures x in d <==> x in o && x.id != o[n].id {
      if x in d {
        var k :| 0 <= k < |d| && d[k] == x;
        var kk := if k < n then k else k + 1;
        assert o[kk] == x;
      }
      if x in o && x.id != o[n].id {
        var k :| 0 <= k < |o| && o[k] == x;
        if k < n {
          assert d[k] == x;
        } else {
          assert d[k - 1] == x;
        }
      }
    }
  }

  /** The tasks of xs with priority p, in the order of xs. */
  function OfPriority(xs: seq<Task>, p: Priority): seq<Task> {
    if xs == [] then []
    else
      var n := |xs| - 1;
      OfPriority(xs[..n], p) + (if xs[n].priority == p then [xs[n]] else [])
  }

  /** Enqueues the tasks of xs one after the other. */
  function EnqueueAll(q: Tiers, xs: seq<Task>): Tiers {
    if xs == [] then q else EnqueueAll(q, xs[..|xs| - 1]).Enqueue(xs[|xs| - 1])
  }

  /** Enqueuing one more task after a list is enqueuing the longer list. */
  lemma EnqueueAllSnoc(q: Tiers, xs: seq<Task>, t: Task)
    ensures EnqueueAll(q, xs + [t]) == EnqueueAll(q, xs).Enqueue(t)
  {
    assert (xs + [t])[..|xs|] == xs;
  }

  /** Enqueuing a list leaves every tier as it was, followed by the listed tasks of its
      priority in list order. */
  lemma {:induction false} EnqueueAllTiers(q: Tiers, xs: seq<Task>)
    ensures forall p :: EnqueueAll(q, xs).Tier(p) == q.Tier(p) + OfPriority(xs, p)
  {
    if xs != [] {
      var n := |xs| - 1;
      EnqueueAllTiers(q, xs[..n]);
      var e := EnqueueAll(q, xs[..n]);
      assert EnqueueAll(q, xs) == e.Enqueue(xs[n]);
      forall p ensures EnqueueAll(q, xs).Tier(p) == q.Tier(p) + OfPriority(xs, p) {
        var tail := if xs[n].priority == p then [xs[n]] else [];
        assert OfPriority(xs, p) == OfPriority(xs[..n], p) + tail;
        assert e.Enqueue(xs[n]).Tier(p) == e.Tier(p) + tail;
      }
    }
  }

  /** The mutable queue: three FIFO sequences updated in place. */
  class TaskQueue {
    var high: seq<Task>
    var medium: seq<Task>
    var low: seq<Task>

    function State(): Tiers
      reads this
    {
      Tiers(high, medium, low)
    }

    constructor ()
      ensures State() == EmptyTiers
    {
      high, medium, low := [], [], [];
    }

    method Enqueue(t: Task)
      modifies this
      ensures State() == old(State()).Enqueue(t)
    {
      match t.priority
      case High => high := high + [t];
      case Medium => medium := medium + [t];
      case Low => low := low + [t];
    }

    method Dequeue() returns (r: Option<Task>)
      modifies this
      ensures (r, State()) == old(State()).Dequeue()
    {
      if high != [] {
        r := Some(high[0]);
        high := high[1..];
      } else if medium != [] {
        r := Some(medium[0]);
        medium := medium[1..];
      } else if low != [] {
        r := Some(low[0]);
        low := low[1..];
      } else {
        r := None;
      }
    }

    method Remove(t: Task) returns (found: bool)
      modifies this
      ensures (State(), found) == old(State()).Remove(t)
    {
      var s := State().Tier(t.priority);
      found := State().Remove(t).1;
      if found {
        var s' := RemoveFirst(s, t.id);
        match t.priority
        case High => high := s';
        case Medium => medium := s';
        case Low => low := s';
      }
    }

    /** The number of queued tasks, which is the length of the dequeue order. */
    function Size(): (n: nat)
      reads this
      ensures n == |State().Order()|
    {
      |high| + |medium| + |low|
    }

    predicate IsEmpty(): (b: bool)
      reads this
      ensures b <==> State().Order() == [] && State().Dequeue().0.None?
    {
      Size() == 0
    }

    method Clear()
      modifies this
      ensures State() == EmptyTiers
    {
      high, medium, low := [], [], [];
    }

    /** The tier that serves the given priority. */
    function GetQueueForPriority(p: Priority): (s: seq<Task>)
      reads this
      ensures forall i :: 0 <= i < |s| && State().WellFormed() ==> s[i].priority == p
    {
      State().Tier(p)
    }
  }
}
