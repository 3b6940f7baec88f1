/** Bounds and quotients of whole numbers. */
module Arithmetic {

  function Min(a: int, b: int): int { if a <= b then a else b }

  function Max(a: int, b: int): int { if a >= b then a else b }

  /** The part of a free capacity that can still be handed out. */
  function Pos(a: int): int { Max(a, 0) }

  /** The quotient of a and b, rounded up. */
  function Ceil(a: nat, b: int): int
    requires 0 < b
  {
    (a + b - 1) / b
  }

  /** The least number of groups of size b that hold a. */
  lemma CeilLaw(a: nat, b: int, c: int)
    requires 0 < b
    ensures a <= Ceil(a, b) * b < a + b
    ensures a <= c * b ==> Ceil(a, b) <= c
  {
    var q := Ceil(a, b);
    assert a + b - 1 == b * q + (a + b - 1) % b;
    assert b * q == q * b;
    assert (q - 1) * b == q * b - b;
    if c <= q - 1 { MulMonotone(c, q - 1, b); }
  }

  lemma MulMonotone(a: int, b: int, c: nat)
    requires a <= b
    ensures a * c <= b * c
  {
    assert 0 <= (b - a) * c == b * c - a * c;
  }

  /** What is lost by rounding a quotient down. */
  lemma FloorLaw(a: nat, d: int)
    requires 0 < d
    ensures d * (a / d) <= a < d * (a / d) + d && 0 <= a / d
  {
    assert a == d * (a / d) + a % d;
  }
}
