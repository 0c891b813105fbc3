/** Facts about integer multiplication and Euclidean division that the
    verifier does not find on its own once a divisor is not a literal. */
module Arith {

  /** The quotient of `x` by `d` is the `q` with `d*q <= x < d*q + d`. */
  lemma DivBetween(x: int, d: int, q: int)
    requires 0 < d && d * q <= x < d * q + d
    ensures x / d == q
  {
    var k, r := x / d, x % d;
    assert x == d * k + r && 0 <= r < d;
    if k > q {
      MulMonotone(d, q + 1, k);
      assert false;
    } else if k < q {
      MulMonotone(d, k + 1, q);
      assert false;
    }
  }

  lemma MulMonotone(d: int, a: int, b: int)
    requires 0 < d && a <= b
    ensures d * a <= d * b
  {
    assert d * b - d * a == d * (b - a);
  }

  /** Adding a multiple of `d` does not change the remainder. */
  lemma ModMultiplePlus(d: int, q: int, x: int)
    requires 0 < d
    ensures (d * q + x) % d == x % d
  {
    var q', r' := x / d, x % d;
    assert x == d * q' + r';
    var y := d * q + x;
    assert y == d * (q + q') + r';
    DivBetween(y, d, q + q');
    assert y == d * (y / d) + y % d;
  }
}
