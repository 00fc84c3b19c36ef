/**
 * Compile-time helpers of the subjective-logic library: the epsilon used by
 * every "near zero" test, the binomial predicate, the unrolled for-loop and
 * the minimum / maximum of a function over an index range.
 */
module Util {

  /** Tolerance used for `double` (EPS_v<double>). */
  const EPS: real := 0.0000000001

  /** Tolerance used for `float` (EPS_v<float>). */
  const EPS_FLOAT: real := 0.00001

  /** std::optional. */
  datatype Option<T> = None | Some(value: T)

  /** The value of an operation, or the std::logic_error it throws. */
  datatype Result<T> = Success(value: T) | Failure(error: string)

  lemma EpsPositive()
    ensures 0.0 < EPS < EPS_FLOAT < 1.0
  {
  }

  function Abs(x: real): (r: real)
    ensures r >= 0.0
    ensures r == x || r == -x
  {
    if x < 0.0 then -x else x
  }

  /** A value that passes a "not near zero" test is not zero. */
  lemma NotNearZero(x: real)
    requires Abs(x) >= EPS
    ensures x != 0.0
  {
  }

  function Min(a: real, b: real): (r: real)
    ensures r <= a && r <= b
    ensures r == a || r == b
  {
    if b < a then b else a
  }

  function Max(a: real, b: real): (r: real)
    ensures r >= a && r >= b
    ensures r == a || r == b
  {
    if a < b then b else a
  }

  /** std::clamp(v, lo, hi) for lo <= hi. */
  function Clamp(v: real, lo: real, hi: real): (r: real)
    requires lo <= hi
    ensures lo <= r <= hi
    ensures lo <= v <= hi ==> r == v
    ensures v < lo ==> r == lo
    ensures v > hi ==> r == hi
  {
    if v < lo then lo else if hi < v then hi else v
  }

  /** An opinion over N hypotheses is binomial exactly when N == 2. */
  predicate IsBinomial(n: nat)
  {
    n == 2
  }

  /**
   * The indices constexpr_for<start, end, inc> passes to its function, in
   * call order: start is visited when start < end, and the recursion into
   * start + inc happens only when start + inc < end.
   */
  function ConstexprFor(start: int, end: int, inc: int): (visited: seq<int>)
    requires inc > 0
    ensures start < end <==> |visited| > 0
    ensures |visited| > 0 ==> visited[0] == start && visited[|visited| - 1] + inc >= end
    ensures forall k :: 0 < k < |visited| ==> visited[k] == visited[k - 1] + inc
    ensures forall k :: 0 <= k < |visited| ==> start <= visited[k] < end
    decreases end - start
  {
    if start < end then
      [start] + (if start + inc < end then ConstexprFor(start + inc, end, inc) else [])
    else
      []
  }

  /** With step 1, constexpr_for<start, end> visits start, start+1, ..., end-1. */
  lemma {:induction false} ConstexprForUnit(start: int, end: int)
    ensures |ConstexprFor(start, end, 1)| == if start < end then end - start else 0
    ensures forall k :: 0 <= k < |ConstexprFor(start, end, 1)| ==> ConstexprFor(start, end, 1)[k] == start + k
    decreases end - start
  {
    if start < end {
      ConstexprForUnit(start + 1, end);
    }
  }

  /**
   * util::min: starts from f(start) and walks the remaining indices of the
   * range, keeping the running value whenever a strictly smaller one shows up.
   */
  method MinOver(f: int -> real, start: int, end: int, inc: int) returns (m: real)
    requires end > start && inc > 0
    ensures forall i :: i in ConstexprFor(start, end, inc) ==> m <= f(i)
    ensures exists j :: j in ConstexprFor(start, end, inc) && m == f(j)
  {
    var all := ConstexprFor(start, end, inc);
    var rest := if start + inc < end then ConstexprFor(start + inc, end, inc) else [];
    assert all == [start] + rest;
    m := f(start);
    var k := 0;
    while k < |rest|
      invariant 0 <= k <= |rest|
      invariant forall j :: 0 <= j < k ==> m <= f(rest[j])
      invariant m <= f(start)
      invariant m == f(start) || exists j :: 0 <= j < k && m == f(rest[j])
    {
      var value := f(rest[k]);
      if value < m {
        m := value;
      }
      k := k + 1;
    }
    forall i | i in all
      ensures m <= f(i)
    {
      if i != start {
        var j :| 0 <= j < |rest| && rest[j] == i;
      }
    }
    if m != f(start) {
      var j :| 0 <= j < |rest| && m == f(rest[j]);
      assert rest[j] in all;
    } else {
      assert start in all;
    }
  }

  /** util::max, the mirror image of MinOver. */
  method MaxOver(f: int -> real, start: int, end: int, inc: int) returns (m: real)
    requires end > start && inc > 0
    ensures forall i :: i in ConstexprFor(start, end, inc) ==> m >= f(i)
    ensures exists j :: j in ConstexprFor(start, end, inc) && m == f(j)
  {
    var all := ConstexprFor(start, end, inc);
    var rest := if start + inc < end then ConstexprFor(start + inc, end, inc) else [];
    assert all == [start] + rest;
    m := f(start);
    var k := 0;
    while k < |rest|
      invariant 0 <= k <= |rest|
      invariant forall j :: 0 <= j < k ==> m >= f(rest[j])
      invariant m >= f(start)
      invariant m == f(start) || exists j :: 0 <= j < k && m == f(rest[j])
    {
      var value := f(rest[k]);
      if value > m {
        m := value;
      }
      k := k + 1;
    }
    forall i | i in all
      ensures m >= f(i)
    {
      if i != start {
        var j :| 0 <= j < |rest| && rest[j] == i;
      }
    }
    if m != f(start) {
      var j :| 0 <= j < |rest| && m == f(rest[j]);
      assert rest[j] in all;
    } else {
      assert start in all;
    }
  }
}
