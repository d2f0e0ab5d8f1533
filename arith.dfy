/** Facts about integer division that the mip and staging arithmetic
    rely on. */
module Arith {

  /** Quotient and remainder are unique. */
  lemma DivModUnique(a: nat, d: int, q: nat, r: nat)
    requires d > 0 && a == q * d + r && r < d
    ensures a / d == q && a % d == r
  {
    var q0, r0 := a / d, a % d;
    assert a == q0 * d + r0 && 0 <= r0 < d;
    if q0 < q {
      MulStep(d, q0, q);
    } else if q < q0 {
      MulStep(d, q, q0);
    }
  }

  lemma MulStep(d: nat, x: nat, y: nat)
    requires x < y
    ensures x * d + d <= y * d
    decreases y - x
  {
    if y == x + 1 {
      assert (x + 1) * d == x * d + d;
    } else {
      MulStep(d, x, y - 1);
      assert y * d == (y - 1) * d + d;
    }
  }
}
