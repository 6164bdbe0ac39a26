/** Minimum and maximum, and small facts about multiplication and division that the
    solver does not find on its own once the factors are variables. */
module Arith {

  function Min(a: int, b: int): int {
    if a < b then a else b
  }

  function RealMin(a: real, b: real): real {
    if a < b then a else b
  }

  function RealMax(a: real, b: real): real {
    if a < b then b else a
  }

  lemma MulLe(a: int, b: int, d: int)
    requires a <= b && d >= 0
    ensures a * d <= b * d
  {
    assert b * d - a * d == (b - a) * d;
  }

  /** `q` and `a - q*d` are the quotient and remainder of `a` by `d` when `q*d <= a < q*d + d`. */
  lemma DivisionPins(a: int, d: nat, q: int)
    requires d >= 1 && a >= 0
    requires q * d <= a < q * d + d
    ensures a / d == q
    ensures a % d == a - q * d
  {
    var r := a / d;
    assert r * d <= a < r * d + d;
    if r < q { MulLe(r + 1, q, d); }
    if r > q { MulLe(q + 1, r, d); }
  }

  lemma DivBounds(s: real, c: real)
    requires c > 0.0 && -c <= s < c
    ensures -1.0 <= s / c < 1.0
  {
    assert s / c * c == s;
  }

  /** Scaling by a positive factor keeps the sign. */
  lemma ScaledSign(x: real, d: real)
    requires d > 0.0
    ensures x * d >= 0.0 <==> x >= 0.0
  {
    if x < 0.0 {
      assert x * d == -((-x) * d);
    }
  }

  lemma DivMonotone(a: real, b: real, d: real)
    requires a <= b && d > 0.0
    ensures a / d <= b / d
  {
    assert (b / d - a / d) * d == b - a;
  }
}
