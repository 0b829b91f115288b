/** The few product facts the solver is handed one at a time. */
module Nonlinear {

  lemma MulCancel(g: int, a: int, b: int)
    requires g != 0 && g * a == g * b
    ensures a == b
  {}

  lemma ProductSign(b: int, k: int)
    requires b > 0
    ensures b * k > 0 <==> k > 0
    ensures b * k >= 0 <==> k >= 0
    ensures b * k < b <==> k < 1
  {
    assert b * (k - 1) == b * k - b;
    if k >= 1 {
      ProductNonNegative(b, k - 1);
    }
  }

  lemma ProductNonNegative(a: int, b: int)
    requires a >= 0 && b >= 0
    ensures a * b >= 0
  {}

  lemma MulMonotone(a: int, b: int, n: int)
    requires a <= b && n > 0
    ensures a * n <= b * n
  {}

  lemma MulStrict(a: int, b: int, n: int)
    requires n > 0
    ensures a * n < b * n <==> a < b
    ensures a * n <= b * n <==> a <= b
  {}

  lemma Step(a: int, n: int)
    ensures (a + 1) * n == a * n + n
    ensures (a - 1) * n == a * n - n
  {}

  lemma DivisionBounds(q1: int, r1: int, q2: int, r2: int, b: int)
    requires 0 <= r1 < b && 0 <= r2 < b && b * q1 + r1 == b * q2 + r2
    ensures q1 == q2 && r1 == r2
  {
    var d := q1 - q2;
    assert b * d == b * q1 - b * q2;
    ProductSign(b, d + 1);
    ProductSign(b, 1 - d);
    assert b * (d + 1) == b * d + b;
    assert b * (1 - d) == b - b * d;
  }

  lemma DivUnique(a: int, b: int, q: int, r: int)
    requires b > 0 && a == b * q + r && 0 <= r < b
    ensures a / b == q && a % b == r
  {
    DivisionBounds(a / b, a % b, q, r, b);
  }

  lemma DivMod(a: int, b: int)
    requires b > 0
    ensures a == b * (a / b) + a % b && 0 <= a % b < b
  {}

  lemma ExactQuotient(g: int, p: int)
    requires g > 0
    ensures (g * p) / g == p
  {
    DivUnique(g * p, g, p, 0);
  }
}
