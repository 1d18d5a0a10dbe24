/** Facts about floor division by a positive divisor, which is what Dafny's
    `/` and `%` and Python's `//` and `%` compute. */
module Arith {

  lemma {:induction false} MulAtLeast(d: int, k: int)
    requires d > 0 && k >= 1
    ensures d * k >= d
    decreases k
  {
    if k > 1 {
      MulAtLeast(d, k - 1);
      assert d * k == d * (k - 1) + d;
    }
  }

  /** Quotient and remainder are unique. */
  lemma DivUnique(a: int, d: int, q: int, r: int)
    requires d > 0 && a == d * q + r && 0 <= r < d
    ensures a / d == q && a % d == r
  {
    var q0 := a / d;
    if q0 < q {
      MulAtLeast(d, q - q0);
      assert false;
    } else if q0 > q {
      MulAtLeast(d, q0 - q);
      assert false;
    }
  }

  /** Floor division is monotone in the dividend. */
  lemma DivMonotone(a: int, b: int, d: int)
    requires d > 0 && a <= b
    ensures a / d <= b / d
  {
    var qa, qb := a / d, b / d;
    if qa > qb {
      MulAtLeast(d, qa - qb);
      assert false;
    }
  }
}
