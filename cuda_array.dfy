/**
 * The fixed-size vector `Array<N, T>` (T = real): N entries stored inline and
 * overwritten in place by the constructors, `fill` and every compound
 * operator. The value of an Array is the sequence of its entries; the
 * sequence functions below are the specification of each operation.
 */
module CudaArray {
  import opened Util

  /** Sum of the entries, accumulated from the front as Array::sum does. */
  function Sum(s: seq<real>): real
  {
    SumPrefix(s)
  }

  /** The recursion behind Sum: the last entry added to the sum of the others. */
  function SumPrefix(s: seq<real>): real
  {
    if |s| == 0 then 0.0 else SumPrefix(s[..|s| - 1]) + s[|s| - 1]
  }

  function Constant(n: nat, v: real): (r: seq<real>)
    ensures |r| == n && forall i :: 0 <= i < n ==> r[i] == v
  {
    seq(n, _ => v)
  }

  /** Entrywise a + b, a - b, a * b and a / b. */
  function Add(a: seq<real>, b: seq<real>): (r: seq<real>)
    requires |a| == |b|
  {
    seq(|a|, i requires 0 <= i < |a| => a[i] + b[i])
  }

  function Sub(a: seq<real>, b: seq<real>): (r: seq<real>)
    requires |a| == |b|
  {
    seq(|a|, i requires 0 <= i < |a| => a[i] - b[i])
  }

  function Mul(a: seq<real>, b: seq<real>): (r: seq<real>)
    requires |a| == |b|
  {
    seq(|a|, i requires 0 <= i < |a| => a[i] * b[i])
  }

  predicate NoZero(a: seq<real>)
  {
    forall i :: 0 <= i < |a| ==> a[i] != 0.0
  }

  function Div(a: seq<real>, b: seq<real>): (r: seq<real>)
    requires |a| == |b| && NoZero(b)
  {
    seq(|a|, i requires 0 <= i < |a| => a[i] / b[i])
  }

  /** Entry and scalar: a[i] + v, a[i] - v, a[i] * v, a[i] / v. */
  function AddScalar(a: seq<real>, v: real): (r: seq<real>)
  {
    seq(|a|, i requires 0 <= i < |a| => a[i] + v)
  }

  function SubScalar(a: seq<real>, v: real): (r: seq<real>)
  {
    seq(|a|, i requires 0 <= i < |a| => a[i] - v)
  }

  function Scale(a: seq<real>, v: real): (r: seq<real>)
  {
    seq(|a|, i requires 0 <= i < |a| => a[i] * v)
  }

  function DivScalar(a: seq<real>, v: real): (r: seq<real>)
    requires v != 0.0
  {
    seq(|a|, i requires 0 <= i < |a| => a[i] / v)
  }

  /** The free operators `value - array` and `value / array`: value first. */
  function ScalarMinus(v: real, a: seq<real>): (r: seq<real>)
  {
    seq(|a|, i requires 0 <= i < |a| => v - a[i])
  }

  function ScalarOver(v: real, a: seq<real>): (r: seq<real>)
    requires NoZero(a)
  {
    seq(|a|, i requires 0 <= i < |a| => v / a[i])
  }

  // ---------------------------------------------------------------------
  // Algebra of Sum, used by every opinion operator that reasons about the
  // uncertainty 1 - Sum(b).
  // ---------------------------------------------------------------------

  lemma {:induction false} SumLinear(s: seq<real>, t: seq<real>, r: seq<real>, a: real, b: real)
    requires |s| == |t| == |r|
    requires forall i :: 0 <= i < |r| ==> r[i] == a * s[i] + b * t[i]
    ensures Sum(r) == a * Sum(s) + b * Sum(t)
    decreases |r|
  {
    if |r| > 0 {
      var n := |r| - 1;
      SumLinear(s[..n], t[..n], r[..n], a, b);
    }
  }

  lemma SumScaled(s: seq<real>, r: seq<real>, a: real)
    requires |s| == |r|
    requires forall i :: 0 <= i < |r| ==> r[i] == a * s[i]
    ensures Sum(r) == a * Sum(s)
  {
    SumLinear(s, s, r, a, 0.0);
  }

  lemma SumDivided(s: seq<real>, r: seq<real>, k: real)
    requires |s| == |r| && k != 0.0
    requires forall i :: 0 <= i < |r| ==> r[i] == s[i] / k
    ensures Sum(r) == Sum(s) / k
  {
    forall i | 0 <= i < |r|
      ensures r[i] == (1.0 / k) * s[i]
    {
    }
    SumScaled(s, r, 1.0 / k);
  }

  lemma {:induction false} SumAdded(s: seq<real>, t: seq<real>, r: seq<real>)
    requires |s| == |t| == |r|
    requires forall i :: 0 <= i < |r| ==> r[i] == s[i] + t[i]
    ensures Sum(r) == Sum(s) + Sum(t)
  {
    if |r| > 0 {
      var n := |r| - 1;
      SumAdded(s[..n], t[..n], r[..n]);
    }
  }

  lemma {:induction false} SumConstant(n: nat, v: real)
    ensures Sum(Constant(n, v)) == n as real * v
  {
    if n > 0 {
      assert Constant(n, v)[..n - 1] == Constant(n - 1, v);
      SumConstant(n - 1, v);
    }
  }

  lemma {:induction false} SumNonNegative(s: seq<real>)
    requires forall i :: 0 <= i < |s| ==> s[i] >= 0.0
    ensures Sum(s) >= 0.0
  {
    if |s| > 0 {
      SumNonNegative(s[..|s| - 1]);
    }
  }

  /** Sum over a prefix extended by one entry: the step of the summing loop. */
  lemma SumPrefixStep(s: seq<real>, k: nat)
    requires k < |s|
    ensures Sum(s[..k + 1]) == Sum(s[..k]) + s[k]
  {
    assert s[..k + 1][..k] == s[..k];
  }

  lemma {:induction false} SumMonotone(s: seq<real>, t: seq<real>)
    requires |s| == |t|
    requires forall i :: 0 <= i < |s| ==> s[i] <= t[i]
    ensures Sum(s) <= Sum(t)
  {
    if |s| > 0 {
      SumMonotone(s[..|s| - 1], t[..|t| - 1]);
    }
  }

  /** Sum of a single entry among zeros. */
  lemma {:induction false} SumSingle(s: seq<real>, k: nat)
    requires k < |s|
    requires forall i :: 0 <= i < |s| && i != k ==> s[i] == 0.0
    ensures Sum(s) == s[k]
  {
    var n := |s| - 1;
    if n == k {
      SumZero(s[..n]);
    } else {
      SumSingle(s[..n], k);
    }
  }

  /** With no negative entry, the sum is at least any one entry. */
  lemma SumAtLeastEntry(s: seq<real>, k: nat)
    requires k < |s| && forall i :: 0 <= i < |s| ==> s[i] >= 0.0
    ensures Sum(s) >= s[k]
  {
    var single := seq(|s|, i requires 0 <= i < |s| => if i == k then s[k] else 0.0);
    SumSingle(single, k);
    SumMonotone(single, s);
  }

  lemma {:induction false} SumZero(s: seq<real>)
    requires forall i :: 0 <= i < |s| ==> s[i] == 0.0
    ensures Sum(s) == 0.0
  {
    if |s| > 0 {
      SumZero(s[..|s| - 1]);
    }
  }

  /** Scaling every entry scales the sum. */
  /** Entries strictly between -c and c sum to strictly between -|s| c and |s| c. */
  lemma {:induction false} SumWithin(s: seq<real>, c: real)
    requires |s| > 0
    requires forall i :: 0 <= i < |s| ==> -c < s[i] < c
    ensures -(|s| as real) * c < Sum(s) < |s| as real * c
    decreases |s|
  {
    var m := |s|;
    var k := (m - 1) as real;
    assert Sum(s) == Sum(s[..m - 1]) + s[m - 1];
    if m > 1 {
      SumWithin(s[..m - 1], c);
      assert k * c + c == (k + 1.0) * c;
    } else {
      assert s[..m - 1] == [];
    }
  }

  lemma SumScale(s: seq<real>, v: real)
    ensures Sum(Scale(s, v)) == Sum(s) * v
  {
    SumScaled(s, Scale(s, v), v);
  }

  lemma SumDivScalar(s: seq<real>, v: real)
    requires v != 0.0
    ensures Sum(DivScalar(s, v)) == Sum(s) / v
  {
    SumDivided(s, DivScalar(s, v), v);
  }

  lemma ScaleEntry(s: seq<real>, v: real, i: nat)
    requires i < |s|
    ensures Scale(s, v)[i] == s[i] * v
  {
  }

  /** Subtracting and adding back the same vector is the identity. */
  lemma AddSubCancel(a: seq<real>, b: seq<real>)
    requires |a| == |b|
    ensures Add(Sub(a, b), b) == a
  {
  }

  // ---------------------------------------------------------------------
  // The Array class.
  // ---------------------------------------------------------------------

  class Array {
    /** `T entries[N]`; N is entries.Length and never changes. */
    const entries: array<real>

    /** Array(): every entry 0. */
    constructor Zeros(n: nat)
      ensures entries.Length == n && fresh(entries)
      ensures entries[..] == Constant(n, 0.0)
    {
      entries := new real[n];
      new;
      Fill(0.0);
    }

    /** Array(default_entry): every entry set to the given value. */
    constructor Filled(n: nat, v: real)
      ensures entries.Length == n && fresh(entries)
      ensures entries[..] == Constant(n, v)
    {
      entries := new real[n];
      new;
      var visited := ConstexprFor(0, n, 1);
      ConstexprForUnit(0, n);
      var k := 0;
      while k < |visited|
        invariant 0 <= k <= |visited| == n == entries.Length
        invariant forall j :: 0 <= j < k ==> entries[j] == v
      {
        entries[visited[k]] := v;
        k := k + 1;
      }
      assert |visited| == n;
    }

    /** Array(std::array<T, N>): copies the given entries. */
    constructor FromStdArray(other: seq<real>)
      ensures entries.Length == |other| && fresh(entries)
      ensures entries[..] == other
    {
      entries := new real[|other|](i requires 0 <= i < |other| => other[i]);
    }

    /**
     * Array(values...): array_factory stores the head of the remaining
     * values at index (N - 1) - (number of values after it).
     */
    constructor FromValues(values: seq<real>)
      ensures entries.Length == |values| && fresh(entries)
      ensures entries[..] == values
    {
      entries := new real[|values|];
      new;
      var n := |values|;
      var remaining := values;
      while remaining != []
        invariant |remaining| <= n
        invariant remaining == values[n - |remaining|..]
        invariant forall j :: 0 <= j < n - |remaining| ==> entries[j] == values[j]
      {
        var after := |remaining| - 1;
        entries[(n - 1) - after] := remaining[0];
        remaining := remaining[1..];
      }
    }

    /** fill(v): every entry set to v, in index order. */
    method Fill(v: real)
      modifies entries
      ensures entries[..] == Constant(entries.Length, v)
    {
      var k := 0;
      while k < entries.Length
        invariant 0 <= k <= entries.Length
        invariant forall j :: 0 <= j < k ==> entries[j] == v
      {
        entries[k] := v;
        k := k + 1;
      }
    }

    /** operator[] const: the entry at the index. */
    function Get(idx: nat): (r: real)
      reads entries
      requires idx < entries.Length
      ensures r == entries[..][idx]
    {
      entries[idx]
    }

    /** operator[] used as an lvalue: only that entry changes. */
    method Set(idx: nat, v: real)
      requires idx < entries.Length
      modifies entries
      ensures entries[..] == old(entries[..])[idx := v]
    {
      entries[idx] := v;
    }

    /** sum(): entries[0] plus entries 1 .. N-1, accumulated in order. */
    method SumEntries() returns (sum: real)
      requires entries.Length > 0
      ensures sum == Sum(entries[..])
    {
      sum := entries[0];
      assert entries[..1] == [entries[0]];
      assert Sum(entries[..1]) == Sum(entries[..0]) + entries[0];
      var idx := 1;
      while idx < entries.Length
        invariant 1 <= idx <= entries.Length
        invariant sum == Sum(entries[..idx])
      {
        SumPrefixStep(entries[..], idx);
        assert entries[..][..idx] == entries[..idx];
        assert entries[..][..idx + 1] == entries[..idx + 1];
        sum := sum + entries[idx];
        idx := idx + 1;
      }
      assert entries[..idx] == entries[..];
    }

    /** operator+=(other): entries[i] += other[i] for every i. */
    method AddAssign(other: Array)
      requires other.entries.Length == entries.Length
      modifies entries
      ensures entries[..] == Add(old(entries[..]), old(other.entries[..]))
    {
      var k := 0;
      while k < entries.Length
        invariant 0 <= k <= entries.Length
        invariant forall j :: 0 <= j < k ==> entries[j] == old(entries[j]) + old(other.entries[j])
        invariant forall j :: k <= j < entries.Length ==> entries[j] == old(entries[j])
        invariant forall j :: k <= j < entries.Length ==> other.entries[j] == old(other.entries[j])
      {
        entries[k] := entries[k] + other.entries[k];
        k := k + 1;
      }
    }

    /** operator-=(other). */
    method SubAssign(other: Array)
      requires other.entries.Length == entries.Length
      modifies entries
      ensures entries[..] == Sub(old(entries[..]), old(other.entries[..]))
    {
      var k := 0;
      while k < entries.Length
        invariant 0 <= k <= entries.Length
        invariant forall j :: 0 <= j < k ==> entries[j] == old(entries[j]) - old(other.entries[j])
        invariant forall j :: k <= j < entries.Length ==> entries[j] == old(entries[j])
        invariant forall j :: k <= j < entries.Length ==> other.entries[j] == old(other.entries[j])
      {
        entries[k] := entries[k] - other.entries[k];
        k := k + 1;
      }
    }

    /** operator*=(other). */
    method MulAssign(other: Array)
      requires other.entries.Length == entries.Length
      modifies entries
      ensures entries[..] == Mul(old(entries[..]), old(other.entries[..]))
    {
      var k := 0;
      while k < entries.Length
        invariant 0 <= k <= entries.Length
        invariant forall j :: 0 <= j < k ==> entries[j] == old(entries[j]) * old(other.entries[j])
        invariant forall j :: k <= j < entries.Length ==> entries[j] == old(entries[j])
        invariant forall j :: k <= j < entries.Length ==> other.entries[j] == old(other.entries[j])
      {
        entries[k] := entries[k] * other.entries[k];
        k := k + 1;
      }
      assert forall j :: 0 <= j < entries.Length ==> entries[..][j] == Mul(old(entries[..]), old(other.entries[..]))[j];
    }

    /** operator/=(other); a zero divisor entry is outside the real model. */
    method DivAssign(other: Array)
      requires other.entries.Length == entries.Length
      requires NoZero(other.entries[..])
      modifies entries
      ensures NoZero(old(other.entries[..]))
      ensures entries[..] == Div(old(entries[..]), old(other.entries[..]))
    {
      ghost var divisor := other.entries[..];
      var k := 0;
      while k < entries.Length
        invariant 0 <= k <= entries.Length
        invariant forall j :: 0 <= j < k ==> entries[j] == old(entries[j]) / divisor[j]
        invariant forall j :: k <= j < entries.Length ==> entries[j] == old(entries[j])
        invariant forall j :: k <= j < entries.Length ==> other.entries[j] == divisor[j]
      {
        entries[k] := entries[k] / other.entries[k];
        k := k + 1;
      }
    }

    /** operator+=(value). */
    method AddScalarAssign(v: real)
      modifies entries
      ensures entries[..] == AddScalar(old(entries[..]), v)
    {
      var k := 0;
      while k < entries.Length
        invariant 0 <= k <= entries.Length
        invariant forall j :: 0 <= j < k ==> entries[j] == old(entries[j]) + v
        invariant forall j :: k <= j < entries.Length ==> entries[j] == old(entries[j])
      {
        entries[k] := entries[k] + v;
        k := k + 1;
      }
    }

    /** operator-=(value). */
    method SubScalarAssign(v: real)
      modifies entries
      ensures entries[..] == SubScalar(old(entries[..]), v)
    {
      var k := 0;
      while k < entries.Length
        invariant 0 <= k <= entries.Length
        invariant forall j :: 0 <= j < k ==> entries[j] == old(entries[j]) - v
        invariant forall j :: k <= j < entries.Length ==> entries[j] == old(entries[j])
      {
        entries[k] := entries[k] - v;
        k := k + 1;
      }
    }

    /** operator*=(value). */
    method ScaleAssign(v: real)
      modifies entries
      ensures entries[..] == Scale(old(entries[..]), v)
    {
      var k := 0;
      while k < entries.Length
        invariant 0 <= k <= entries.Length
        invariant forall j :: 0 <= j < k ==> entries[j] == old(entries[j]) * v
        invariant forall j :: k <= j < entries.Length ==> entries[j] == old(entries[j])
      {
        entries[k] := entries[k] * v;
        k := k + 1;
      }
      assert forall j :: 0 <= j < entries.Length ==> entries[..][j] == Scale(old(entries[..]), v)[j];
    }

    /** operator/=(value); a zero divisor is outside the real model. */
    method DivScalarAssign(v: real)
      requires v != 0.0
      modifies entries
      ensures entries[..] == DivScalar(old(entries[..]), v)
    {
      var k := 0;
      while k < entries.Length
        invariant 0 <= k <= entries.Length
        invariant forall j :: 0 <= j < k ==> entries[j] == old(entries[j]) / v
        invariant forall j :: k <= j < entries.Length ==> entries[j] == old(entries[j])
      {
        entries[k] := entries[k] / v;
        k := k + 1;
      }
    }

    /** A copy of this array, `Array(*this)`. */
    method Copy() returns (r: Array)
      ensures fresh(r) && fresh(r.entries)
      ensures r.entries[..] == entries[..]
    {
      r := new Array.FromStdArray(entries[..]);
    }

    /** operator+(other) const: a modified copy; the receiver is unchanged. */
    method Plus(other: Array) returns (r: Array)
      requires other.entries.Length == entries.Length
      ensures fresh(r) && fresh(r.entries)
      ensures r.entries[..] == Add(entries[..], other.entries[..])
    {
      r := Copy();
      r.AddAssign(other);
    }

    /** operator-(other) const. */
    method Minus(other: Array) returns (r: Array)
      requires other.entries.Length == entries.Length
      ensures fresh(r) && fresh(r.entries)
      ensures r.entries[..] == Sub(entries[..], other.entries[..])
    {
      r := Copy();
      r.SubAssign(other);
    }

    /** operator*(other) const. */
    method Times(other: Array) returns (r: Array)
      requires other.entries.Length == entries.Length
      ensures fresh(r) && fresh(r.entries)
      ensures r.entries[..] == Mul(entries[..], other.entries[..])
    {
      r := Copy();
      r.MulAssign(other);
    }

    /** operator/(other) const. */
    method Over(other: Array) returns (r: Array)
      requires other.entries.Length == entries.Length
      requires NoZero(other.entries[..])
      ensures fresh(r) && fresh(r.entries)
      ensures r.entries[..] == Div(entries[..], other.entries[..])
    {
      r := Copy();
      r.DivAssign(other);
    }

    /**
     * as_vector() as written: the loop is constexpr_for<1, N>, so entry 0 is
     * never pushed and the vector holds N - 1 entries.
     */
    method AsVector() returns (out: seq<real>)
      ensures entries.Length > 0 ==> out == entries[1..] && |out| == entries.Length - 1
      ensures entries.Length == 0 ==> out == []
    {
      out := [];
      var visited := ConstexprFor(1, entries.Length, 1);
      ConstexprForUnit(1, entries.Length);
      var k := 0;
      while k < |visited|
        invariant 0 <= k <= |visited|
        invariant |out| == k
        invariant forall j :: 0 <= j < k ==> out[j] == entries[j + 1]
      {
        out := out + [entries[visited[k]]];
        k := k + 1;
      }
      assert entries.Length > 1 ==> |visited| == entries.Length - 1;
    }

    /** as_vector() with the loop starting at index 0: every entry, in order. */
    method AsVectorCorrected() returns (out: seq<real>)
      ensures out == entries[..]
    {
      out := [];
      var visited := ConstexprFor(0, entries.Length, 1);
      ConstexprForUnit(0, entries.Length);
      var k := 0;
      while k < |visited|
        invariant 0 <= k <= |visited| == entries.Length
        invariant out == entries[..k]
      {
        out := out + [entries[visited[k]]];
        k := k + 1;
      }
    }

    /**
     * as_array() as written: `std::array<T, N> out;` is left uninitialised
     * and the copy loop starts at 1, so out[0] is indeterminate.
     */
    method AsArray() returns (out: array<real>)
      ensures fresh(out) && out.Length == entries.Length
      ensures forall i :: 1 <= i < out.Length ==> out[i] == entries[i]
    {
      out := new real[entries.Length];
      var visited := ConstexprFor(1, entries.Length, 1);
      ConstexprForUnit(1, entries.Length);
      var k := 0;
      while k < |visited|
        invariant 0 <= k <= |visited|
        invariant forall j :: 1 <= j <= k ==> out[j] == entries[j]
      {
        out[visited[k]] := entries[visited[k]];
        k := k + 1;
      }
      assert entries.Length > 1 ==> |visited| == entries.Length - 1;
    }

    /** as_array() with the copy loop starting at index 0. */
    method AsArrayCorrected() returns (out: array<real>)
      ensures fresh(out) && out[..] == entries[..]
    {
      out := new real[entries.Length];
      var k := 0;
      while k < entries.Length
        invariant 0 <= k <= entries.Length
        invariant forall j :: 0 <= j < k ==> out[j] == entries[j]
      {
        out[k] := entries[k];
        k := k + 1;
      }
    }
  }

  /** `value + array` and `array + value`: a copy with v added to each entry. */
  method PlusScalar(a: Array, v: real) returns (r: Array)
    ensures fresh(r) && fresh(r.entries)
    ensures r.entries[..] == AddScalar(a.entries[..], v)
  {
    r := a.Copy();
    r.AddScalarAssign(v);
  }

  /** `array - value`. */
  method MinusScalar(a: Array, v: real) returns (r: Array)
    ensures fresh(r) && fresh(r.entries)
    ensures r.entries[..] == SubScalar(a.entries[..], v)
  {
    r := a.Copy();
    r.SubScalarAssign(v);
  }

  /** `value * array` and `array * value`. */
  method TimesScalar(a: Array, v: real) returns (r: Array)
    ensures fresh(r) && fresh(r.entries)
    ensures r.entries[..] == Scale(a.entries[..], v)
  {
    r := a.Copy();
    r.ScaleAssign(v);
  }

  /** `array / value`. */
  method OverScalar(a: Array, v: real) returns (r: Array)
    requires v != 0.0
    ensures fresh(r) && fresh(r.entries)
    ensures r.entries[..] == DivScalar(a.entries[..], v)
  {
    r := a.Copy();
    r.DivScalarAssign(v);
  }

  /** `value - array`: each entry becomes value - entry (value first). */
  method ScalarMinusArray(v: real, a: Array) returns (r: Array)
    ensures fresh(r) && fresh(r.entries)
    ensures r.entries[..] == ScalarMinus(v, a.entries[..])
  {
    r := a.Copy();
    var k := 0;
    while k < r.entries.Length
      invariant 0 <= k <= r.entries.Length == a.entries.Length
      invariant forall j :: 0 <= j < k ==> r.entries[j] == v - a.entries[j]
      invariant forall j :: k <= j < r.entries.Length ==> r.entries[j] == a.entries[j]
    {
      r.entries[k] := v - r.entries[k];
      k := k + 1;
    }
  }

  /** `value / array`: each entry becomes value / entry (value first). */
  method ScalarOverArray(v: real, a: Array) returns (r: Array)
    requires NoZero(a.entries[..])
    ensures fresh(r) && fresh(r.entries)
    ensures r.entries[..] == ScalarOver(v, a.entries[..])
  {
    r := a.Copy();
    var k := 0;
    while k < r.entries.Length
      invariant 0 <= k <= r.entries.Length == a.entries.Length
      invariant forall j :: 0 <= j < k ==> r.entries[j] == v / a.entries[j]
      invariant forall j :: k <= j < r.entries.Length ==> r.entries[j] == a.entries[j]
    {
      r.entries[k] := v / r.entries[k];
      k := k + 1;
    }
  }
}
