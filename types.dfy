/**
  Shared vocabulary of the scheduler: identifiers, the three closed enumerations,
  failure-carrying wrappers, and the decimal rendering used for auto-scaled worker ids.
 */
module Types {

  type TaskId = string
  type WorkerId = string

  /** Resource amounts, execution times and speeds are validated to be positive. */
  type Pos = x: int | x > 0 witness 1

  datatype Option<T> = None | Some(value: T)

  /** The failure conditions the core reports instead of throwing. */
  datatype Error =
    | NullArgument(what: string)      // Objects.requireNonNull on an identifier
    | InvalidArgument(what: string)   // a non-positive resource, time or speed
    | DuplicateEntity(id: string)     // registering an identifier twice
    | NotFound(id: string)            // looking up an unknown identifier

  datatype Result<T> = Ok(value: T) | Err(error: Error)

  datatype Outcome = Pass | Fail(error: Error)

  datatype Priority = High | Medium | Low

  datatype TaskStatus = Queued | Assigned | Completed | Cancelled | Failed

  datatype WorkerStatus = Active | Inactive

  /** Some key of a non-empty map. */
  ghost function AnyKey<K, V>(m: map<K, V>): (k: K)
    requires m != map[]
    ensures k in m
  {
    assert exists k :: k in m.Keys;
    var k :| k in m; k
  }

  /** The position of the first amount that is not positive; |amounts| when all are. */
  function FirstNonPositive(amounts: seq<(string, int)>): (i: nat)
    ensures i <= |amounts|
    ensures forall j :: 0 <= j < i ==> amounts[j].1 > 0
    ensures i < |amounts| ==> amounts[i].1 <= 0
  {
    if amounts == [] then 0
    else if amounts[0].1 <= 0 then 0
    else 1 + FirstNonPositive(amounts[1..])
  }

  /** What a validating constructor rejects, in its order of checks: a missing identifier,
      reported under idName, then the first of the named amounts that is not positive; None
      when every check passes. */
  function ArgumentError(idName: string, hasId: bool, amounts: seq<(string, int)>): (r: Option<Error>)
    ensures r.None? <==> hasId && forall i :: 0 <= i < |amounts| ==> amounts[i].1 > 0
    ensures !hasId ==> r == Some(NullArgument(idName))
    ensures hasId && r.Some? ==> r.value == InvalidArgument(amounts[FirstNonPositive(amounts)].0)
  {
    if !hasId then Some(NullArgument(idName))
    else
      var i := FirstNonPositive(amounts);
      if i == |amounts| then None else Some(InvalidArgument(amounts[i].0))
  }

  /** No element occurs twice. */
  ghost predicate NoDup<T>(s: seq<T>) {
    forall i, j :: 0 <= i < j < |s| ==> s[i] != s[j]
  }

  /** Joining two sequences without repetitions and without common elements repeats nothing. */
  lemma NoDupConcat<T>(a: seq<T>, b: seq<T>)
    requires NoDup(a) && NoDup(b) && forall x :: x in a ==> x !in b
    ensures NoDup(a + b)
  {
    var c := a + b;
    forall i, j | 0 <= i < j < |c| ensures c[i] != c[j] {
      if j < |a| {
        assert c[i] == a[i] && c[j] == a[j];
      } else if i >= |a| {
        assert c[i] == b[i - |a|] && c[j] == b[j - |a|];
      } else {
        assert c[i] == a[i] && a[i] in a && c[j] == b[j - |a|];
      }
    }
  }

  /** A sequence without repetitions has as many distinct elements as it is long. */
  lemma {:induction false} NoDupCardinality<T>(s: seq<T>)
    requires NoDup(s)
    ensures |set x | x in s| == |s|
  {
    if s != [] {
      var tail := s[1..];
      assert NoDup(tail) by {
        forall i, j | 0 <= i < j < |tail| ensures tail[i] != tail[j] {
          assert tail[i] == s[i + 1] && tail[j] == s[j + 1];
        }
      }
      NoDupCardinality(tail);
      assert (set x | x in s) == (set x | x in tail) + {s[0]};
    }
  }

  function DigitChar(d: nat): char
    requires d < 10
  {
    "0123456789"[d]
  }

  /** Decimal rendering of a natural number, as Java's string concatenation of an int does. */
  function NatToString(n: nat): (s: string)
    ensures 1 <= |s|
    ensures n < 10 <==> |s| == 1
    decreases n
  {
    if n < 10 then [DigitChar(n)] else NatToString(n / 10) + [DigitChar(n % 10)]
  }

  /** Two numbers with the same decimal rendering are equal. */
  lemma {:induction false} NatToStringInjective(a: nat, b: nat)
    requires NatToString(a) == NatToString(b)
    ensures a == b
    decreases a
  {
    var s := NatToString(a);
    if a < 10 {
      assert b < 10;
      assert "0123456789"[a] == "0123456789"[b];
    } else {
      assert b >= 10;
      var pa, pb := NatToString(a / 10), NatToString(b / 10);
      assert s == pa + [DigitChar(a % 10)] && s == pb + [DigitChar(b % 10)];
      assert pa == s[..|s| - 1] == pb;
      assert DigitChar(a % 10) == s[|s| - 1] == DigitChar(b % 10);
      assert "0123456789"[a % 10] == "0123456789"[b % 10];
      NatToStringInjective(a / 10, b / 10);
    }
  }
}
