/** Stock containers, and the ascending enumeration of a finite set of identifiers
    (the order in which the source's ordered maps and `ORDER BY` clauses deliver rows). */
module Base {

  datatype Option<+T> = None | Some(value: T)

  /** Errors are classified as the source classifies them; messages are not modelled. */
  datatype Error =
    | InvalidInput
    | NotFound
    | Forbidden
    | IdempotencyConflict
    | LeaseLost
    | RateLimited(retryAfterSeconds: int)
    | QuotaExceeded
    | UniqueViolation
    | CoreRejected

  datatype Result<+T> = Ok(value: T) | Err(error: Error) {
    predicate IsFailure() { Err? }
    function PropagateFailure<U>(): Result<U> requires Err? { Err(error) }
    function Extract(): T requires Ok? { value }
  }

  const U64_MAX: nat := 0xFFFF_FFFF_FFFF_FFFF

  function SaturatingAdd(a: nat, b: nat): nat {
    if a + b > U64_MAX then U64_MAX else a + b
  }

  predicate IsLeast(m: nat, s: set<nat>) {
    m in s && forall x :: x in s ==> m <= x
  }

  lemma {:induction false} HasLeast(s: set<nat>)
    requires s != {}
    ensures exists m :: IsLeast(m, s)
    decreases |s|
  {
    var m :| m in s;
    var rest := s - {m};
    if rest == {} {
      assert s == {m};
      assert IsLeast(m, s);
    } else {
      HasLeast(rest);
      var k :| IsLeast(k, rest);
      assert s == rest + {m};
      assert IsLeast(if m <= k then m else k, s);
    }
  }

  function MinOf(s: set<nat>): (m: nat)
    requires s != {}
    ensures m in s && forall x :: x in s ==> m <= x
  {
    HasLeast(s);
    var m :| IsLeast(m, s);
    m
  }

  /** The members of `s` in ascending order. */
  function Ascending(s: set<nat>): (r: seq<nat>)
    ensures forall x :: x in r <==> x in s
    ensures |r| == |s|
    ensures forall i, j :: 0 <= i < j < |r| ==> r[i] < r[j]
  {
    if s == {} then [] else
      var m := MinOf(s);
      [m] + Ascending(s - {m})
  }

  predicate Distinct<T(==)>(s: seq<T>) {
    forall i, j :: 0 <= i < j < |s| ==> s[i] != s[j]
  }

  ghost function ToSet<T>(s: seq<T>): set<T> {
    set x | x in s
  }

  /** A duplicate-free sequence drawn from a finite set is no longer than the set. */
  lemma {:induction false} DistinctLength<T>(s: seq<T>, bound: set<T>)
    requires Distinct(s)
    requires forall x :: x in s ==> x in bound
    ensures |s| <= |bound|
  {
    if s != [] {
      var rest := s[1..];
      forall x | x in rest ensures x in bound - {s[0]} {
        var k :| 0 <= k < |rest| && rest[k] == x;
        assert x == s[k + 1];
      }
      DistinctLength(rest, bound - {s[0]});
    }
  }
}
