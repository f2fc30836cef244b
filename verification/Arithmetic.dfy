/** Facts about products, quotients and powers that the rate and probe bounds rest on. */
module Arithmetic {

  lemma MulOrder(x: int, y: int, k: nat)
    requires x <= y
    ensures x * k <= y * k
  {
  }

  lemma DivisionBounds(a: nat, b: nat)
    requires b > 0
    ensures 0 <= a / b
    ensures a / b * b <= a < (a / b + 1) * b
  {
    assert a == a / b * b + a % b;
  }

  /** A quotient is the only whole number whose multiple and the next one enclose the dividend. */
  lemma QuotientIs(a: nat, b: nat, q: int)
    requires b > 0 && q * b <= a < (q + 1) * b
    ensures a / b == q
  {
    DivisionBounds(a, b);
    if a / b < q {
      MulOrder(a / b + 1, q, b);
    } else if a / b > q {
      MulOrder(q + 1, a / b, b);
    }
  }

  lemma QuotientOrder(a: nat, b: nat, d: nat)
    requires d > 0 && a <= b
    ensures 0 <= a / d <= b / d
  {
    DivisionBounds(a, d);
    DivisionBounds(b, d);
    if a / d > b / d {
      MulOrder(b / d + 1, a / d, d);
    }
  }

  lemma QuotientStep(a: nat, b: nat, d: nat)
    requires d > 0 && a + d <= b
    ensures 0 <= a / d && a / d + 1 <= b / d
  {
    DivisionBounds(a, d);
    var q := a / d;
    assert (q + 1) * d == q * d + d && (q + 2) * d == (q + 1) * d + d;
    QuotientIs(a + d, d, q + 1);
    QuotientOrder(a + d, b, d);
  }

  function Power(x: real, k: nat): real { if k == 0 then 1.0 else x * Power(x, k - 1) }
}
