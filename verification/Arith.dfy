/** Nonlinear arithmetic facts, each proved once. */
module Arith {
  lemma {:induction false} MulMono(a: int, b: int, x: int)
    requires a <= b && 0 <= x
    ensures a * x <= b * x
  {}

  lemma {:induction false} MulMonoStrict(a: int, b: int, x: int)
    requires a < b && 0 < x
    ensures a * x < b * x && a * x + x <= b * x
  {
    MulMono(a + 1, b, x);
    assert (a + 1) * x == a * x + x;
  }

  /** A quotient and a remainder in range determine division and modulus. */
  lemma {:induction false} DivModUnique(x: int, d: int, q: int, r: int)
    requires 0 < d && x == q * d + r && 0 <= r < d
    ensures x / d == q && x % d == r
  {
    var q', r' := x / d, x % d;
    assert x == q' * d + r';
    if q' < q {
      MulMonoStrict(q', q, d);
    } else if q < q' {
      MulMonoStrict(q, q', d);
    }
  }
}
