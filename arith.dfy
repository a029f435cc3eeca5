/** Facts about multiplication and Euclidean division that the solver does not find on its own. */
module Arith {
  lemma MulAtLeastZero(a: int, b: int)
    requires a >= 0 && b >= 0
    ensures a * b >= 0
  {
  }

  lemma MulMonotone(a: nat, b: nat, d: nat)
    requires a <= b
    ensures d * a <= d * b
  {
    assert d * b == d * a + d * (b - a);
    MulAtLeastZero(d, b - a);
  }

  lemma MulAtLeast(a: nat, d: nat)
    requires a >= 1
    ensures a * d >= d
  {
    assert a * d == (a - 1) * d + d;
  }

  /** Euclidean division is unique. */
  lemma {:induction false} DivModUnique(n: nat, d: nat, k: nat, x: nat)
    requires d > 0 && x < d && n == k * d + x
    ensures n % d == x && n / d == k
  {
    var q, r := n / d, n % d;
    assert n == q * d + r;
    if q > k {
      assert q * d == (q - k) * d + k * d;
      MulAtLeast(q - k, d);
      assert false;
    } else if q < k {
      assert k * d == (k - q) * d + q * d;
      MulAtLeast(k - q, d);
      assert false;
    }
  }
}
