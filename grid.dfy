/**
 * The numpy array operations the programs apply to their windows and history
 * matrices: `roll`, first-index `argmax`, stride slicing `[::step]`, and the
 * row and column pushes built from them. A matrix is a sequence of rows.
 */
module Grid {
  import opened Arith

  /** `numpy.roll(a, s)` on a sequence: element k of the result is a[(k - s) mod n]. */
  function Roll<T>(a: seq<T>, s: int): (r: seq<T>)
    ensures |r| == |a|
  {
    seq(|a|, k requires 0 <= k < |a| => a[(k - s) % |a|])
  }

  /** `numpy.roll(a, -idx)`, the centring rotation. */
  function Rotated<T>(a: seq<T>, idx: nat): (r: seq<T>)
    ensures |r| == |a|
  {
    Roll(a, -(idx as int))
  }

  lemma ModSmall(x: int, n: int)
    requires 0 < n && -n <= x < 2 * n
    ensures x % n == if x < 0 then x + n else if x < n then x else x - n
  {
    if x < 0 {
      ModUnique(x, n, -1, x + n);
    } else if x < n {
      ModUnique(x, n, 0, x);
    } else {
      ModUnique(x, n, 1, x - n);
    }
  }

  /** `roll` by 0 <= s <= n moves element k - s to position k, wrapping the last s elements to the front. */
  lemma RollAt<T>(a: seq<T>, s: int, k: int)
    requires 0 <= s <= |a| && 0 <= k < |a|
    ensures Roll(a, s)[k] == if k >= s then a[k - s] else a[k - s + |a|]
  {
    ModSmall(k - s, |a|);
  }

  /** Rotating by -idx is the suffix from idx followed by the prefix before it. */
  lemma RotateIsSplice<T>(a: seq<T>, idx: nat)
    requires idx < |a|
    ensures Rotated(a, idx) == a[idx..] + a[..idx]
  {
    var r := Rotated(a, idx);
    var s := a[idx..] + a[..idx];
    forall k | 0 <= k < |a|
      ensures r[k] == s[k]
    {
      ModSmall(k + idx, |a|);
    }
  }

  /**
   * Centring: rotating by -idx puts element idx first, keeps the cyclic order
   * and keeps every value (a permutation).
   */
  lemma {:induction false} RotateProperties<T>(a: seq<T>, idx: nat)
    requires idx < |a|
    ensures Rotated(a, idx)[0] == a[idx]
    ensures forall k :: 0 <= k < |a| - idx ==> Rotated(a, idx)[k] == a[idx + k]
    ensures forall k :: |a| - idx <= k < |a| ==> Rotated(a, idx)[k] == a[k - (|a| - idx)]
    ensures multiset(Rotated(a, idx)) == multiset(a)
  {
    RotateIsSplice(a, idx);
    assert a == a[..idx] + a[idx..];
    calc {
      multiset(Rotated(a, idx));
      multiset(a[idx..]) + multiset(a[..idx]);
      multiset(a);
    }
  }

  /** Rotation by 0 (centring switched off) changes nothing. */
  lemma RotateByZero<T>(a: seq<T>)
    ensures Rotated(a, 0) == a
  {
    forall k | 0 <= k < |a|
      ensures Rotated(a, 0)[k] == a[k]
    {
      ModSmall(k, |a|);
    }
  }

  /**
   * `numpy.argmax`: the first index holding a maximal value.
   */
  function ArgMax(s: seq<real>): (r: nat)
    requires |s| > 0
    ensures r < |s|
    ensures forall j :: 0 <= j < |s| ==> s[j] <= s[r]
    ensures forall j :: 0 <= j < r ==> s[j] < s[r]
  {
    if |s| == 1 then 0
    else
      var k := ArgMax(s[..|s| - 1]);
      if s[|s| - 1] > s[k] then |s| - 1 else k
  }

  /** The centring index: argmax of the magnitudes, or 0 when centring is off. */
  function CentreIndex(mags: seq<real>, center: bool): (idx: nat)
    requires |mags| > 0
    ensures idx < |mags|
    ensures center ==> idx == ArgMax(mags)
    ensures !center ==> idx == 0
  {
    if center then ArgMax(mags) else 0
  }

  /** The number of elements `[::step]` keeps from n: ceiling of n / step. */
  function StrideCount(n: nat, step: nat): nat
    requires step >= 1
  {
    (n + step - 1) / step
  }

  lemma StrideIndex(n: nat, step: nat, j: nat)
    requires step >= 1 && j < StrideCount(n, step)
    ensures j * step < n
  {
    var c := StrideCount(n, step);
    assert c * step <= n + step - 1;
    assert j <= c - 1;
    assert j * step <= (c - 1) * step by {
      MulMonotone(j, c - 1, step);
    }
  }

  /** A multiple of step is at a stride position. */
  lemma MultipleMod(j: nat, step: nat)
    requires step >= 1
    ensures (j * step) % step == 0
  {
    ModUnique(j * step, step, j, 0);
  }

  lemma MulMonotone(a: nat, b: nat, k: nat)
    requires a <= b
    ensures a * k <= b * k
  {
  }

  /** `a[::step]`: element j is a[j * step]. */
  function Decimate<T>(a: seq<T>, step: nat): (r: seq<T>)
    requires step >= 1
    ensures |r| == StrideCount(|a|, step)
  {
    seq(StrideCount(|a|, step), j requires 0 <= j < StrideCount(|a|, step) =>
      StrideIndex(|a|, step, j); a[j * step])
  }

  /**
   * Stride slicing keeps exactly the multiples of step: element j is a[j * step],
   * every index j * step below n is kept, and nothing beyond the end is.
   */
  lemma {:induction false} DecimateKeepsMultiples<T>(a: seq<T>, step: nat, j: nat)
    requires step >= 1
    ensures j < |Decimate(a, step)| <==> j * step < |a|
    ensures j < |Decimate(a, step)| ==> Decimate(a, step)[j] == a[j * step]
  {
    var c := StrideCount(|a|, step);
    if j < c {
      StrideIndex(|a|, step, j);
    } else {
      assert (|a| + step - 1) < (c + 1) * step;
      MulMonotone(c, j, step);
      assert |a| <= c * step;
    }
  }

  /** With step 1 stride slicing is the identity. */
  lemma DecimateByOne<T>(a: seq<T>)
    ensures Decimate(a, 1) == a
  {
  }

  /** `m[:, ::step]`: every row decimated. */
  function DecimateColumns<T>(m: seq<seq<T>>, step: nat): (r: seq<seq<T>>)
    requires step >= 1
    ensures |r| == |m|
    ensures forall i :: 0 <= i < |m| ==> r[i] == Decimate(m[i], step)
  {
    seq(|m|, i requires 0 <= i < |m| => Decimate(m[i], step))
  }

  predicate IsMatrix<T>(m: seq<seq<T>>, rows: nat, cols: nat)
  {
    |m| == rows && forall i :: 0 <= i < |m| ==> |m[i]| == cols
  }

  function Zeros(rows: nat, cols: nat): (m: seq<seq<real>>)
    ensures IsMatrix(m, rows, cols)
    ensures forall i, j :: 0 <= i < rows && 0 <= j < cols ==> m[i][j] == 0.0
  {
    seq(rows, _ => seq(cols, _ => 0.0))
  }

  /**
   * Row push: `m = roll(m, 1, axis=0)` then `m[0, :] = row`.
   */
  function PushRow<T>(m: seq<seq<T>>, row: seq<T>): (r: seq<seq<T>>)
    requires |m| > 0
    ensures |r| == |m| && r[0] == row
  {
    Roll(m, 1)[0 := row]
  }

  /**
   * Row 0 becomes the new row, row k takes old row k-1, the old last row is dropped
   * and the shape is kept.
   */
  lemma PushRowShifts<T>(m: seq<seq<T>>, row: seq<T>, cols: nat)
    requires IsMatrix(m, |m|, cols) && |m| > 0 && |row| == cols
    ensures IsMatrix(PushRow(m, row), |m|, cols)
    ensures PushRow(m, row)[0] == row
    ensures forall k :: 1 <= k < |m| ==> PushRow(m, row)[k] == m[k - 1]
  {
    forall k | 1 <= k < |m|
      ensures Roll(m, 1)[k] == m[k - 1]
    {
      ModSmall(k - 1, |m|);
    }
    ModSmall(|m| - 1 + |m|, |m|);
    assert (0 - 1) % |m| == |m| - 1;
  }

  /**
   * Column push: `m = roll(m, 1, axis=1)` then `m[:, 0] = col`.
   */
  function PushColumn<T>(m: seq<seq<T>>, col: seq<T>): (r: seq<seq<T>>)
    requires |col| == |m|
    requires forall i :: 0 <= i < |m| ==> |m[i]| > 0
    ensures |r| == |m|
    ensures forall i :: 0 <= i < |m| ==> |r[i]| == |m[i]| && r[i][0] == col[i]
  {
    seq(|m|, i requires 0 <= i < |m| => Roll(m[i], 1)[0 := col[i]])
  }

  /**
   * Column 0 becomes the new column, column k takes old column k-1, the old last column
   * is dropped and the shape is kept.
   */
  lemma PushColumnShifts<T>(m: seq<seq<T>>, col: seq<T>, cols: nat)
    requires IsMatrix(m, |m|, cols) && cols > 0 && |col| == |m|
    ensures IsMatrix(PushColumn(m, col), |m|, cols)
    ensures forall i :: 0 <= i < |m| ==> PushColumn(m, col)[i][0] == col[i]
    ensures forall i, k :: 0 <= i < |m| && 1 <= k < cols ==> PushColumn(m, col)[i][k] == m[i][k - 1]
  {
    forall i, k | 0 <= i < |m| && 1 <= k < cols
      ensures PushColumn(m, col)[i][k] == m[i][k - 1]
    {
      ModSmall(k - 1, cols);
    }
  }
}
