/**
 * Integer division facts the index arithmetic relies on, stated once so that the
 * proofs about windows, strides and byte pairs need no nonlinear search.
 */
module Arith {

  /** A non-zero multiple of d is at least d away from 0. */
  lemma {:induction false} MulAtLeast(d: int, k: int)
    requires d >= 1
    ensures k >= 1 ==> d * k >= d
    ensures k <= -1 ==> d * k <= -d
    decreases if k < 0 then -k else k
  {
    if k > 1 {
      MulAtLeast(d, k - 1);
      assert d * k == d * (k - 1) + d;
    } else if k < -1 {
      MulAtLeast(d, k + 1);
      assert d * k == d * (k + 1) - d;
    }
  }

  /** Euclidean division is unique: x = d*q + r with 0 <= r < d fixes the quotient and remainder. */
  lemma ModUnique(x: int, d: int, q: int, r: int)
    requires d >= 1 && x == d * q + r && 0 <= r < d
    ensures x / d == q && x % d == r
  {
    var q', r' := x / d, x % d;
    assert x == d * q' + r' && 0 <= r' < d;
    assert d * (q - q') == r' - r;
    MulAtLeast(d, q - q');
  }
}
