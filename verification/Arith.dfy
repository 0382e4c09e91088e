/** The few facts about products and quotients that the models share. */
module Arith {
  lemma MulMonotone(a: int, b: int, c: int)
    requires a <= b && 0 <= c
    ensures a * c <= b * c
  {
  }

  lemma MulDistributes(a: int, b: int, c: int)
    ensures (a + b) * c == a * c + b * c
  {
  }

  /** `q` is the quotient of `a` by `b` when the remainder fits. */
  lemma QuotientUnique(a: int, b: int, q: int, r: int)
    requires 0 <= r < b
    requires a == q * b + r
    ensures a / b == q && a % b == r
  {
    var d := a / b - q;
    assert a == (a / b) * b + a % b;
    MulDistributes(a / b, -q, b);
    assert d * b == r - a % b;
    if d >= 1 { MulMonotone(1, d, b); }
    if d <= -1 { MulMonotone(d, -1, b); }
  }

  lemma DivModIdentity(a: int, b: int)
    requires b > 0
    ensures a == (a / b) * b + a % b
    ensures 0 <= a % b < b
  {
  }
}
