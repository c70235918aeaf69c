/** Facts about integer multiplication and Euclidean division used by the time and score arithmetic. */
module Arith {
  lemma MulAtLeast(d: int, k: int)
    requires d > 0 && k >= 1
    ensures d * k >= d
  {
    assert d * k == d * (k - 1) + d;
  }

  lemma MulMonotone(d: nat, a: int, b: int)
    requires a <= b
    ensures d * a <= d * b
  {
    assert d * b == d * a + d * (b - a);
  }

  /** Euclidean division is determined by its quotient-remainder equation. */
  lemma DivModUnique(t: int, d: int, q: int, r: int)
    requires d > 0 && 0 <= r < d && t == d * q + r
    ensures t / d == q && t % d == r
  {
    var q0 := t / d;
    var r0 := t % d;
    assert d * (q - q0) == r0 - r;
    if q > q0 {
      MulAtLeast(d, q - q0);
    } else if q < q0 {
      assert d * (q0 - q) == r - r0;
      MulAtLeast(d, q0 - q);
    }
  }

  lemma DivMonotone(a: nat, b: nat, d: nat)
    requires a <= b && d > 0
    ensures a / d <= b / d
  {
    var qa, qb := a / d, b / d;
    assert a == d * qa + a % d && b == d * qb + b % d;
    if qa > qb {
      assert d * qa == d * qb + d * (qa - qb);
      MulAtLeast(d, qa - qb);
    }
  }
}
