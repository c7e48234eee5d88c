/** The rounding the money and distance helpers share, on exact numbers. */
module Rounding {
  /** `Math.round`: the nearest whole number, halves up. */
  function Round(x: real): int {
    (x + 0.5).Floor
  }

  /** A dollar amount in whole cents. */
  function Cents(dollars: real): int {
    Round(dollars * 100.0)
  }

  /** To the cent. */
  function Round2(x: real): real {
    Round(x * 100.0) as real / 100.0
  }

  const TOLERANCE := 0.000001

  /** Dollars and whole cents, as near as floating point gets to them. */
  predicate WholeCents(dollars: real) {
    -TOLERANCE <= dollars * 100.0 - Cents(dollars) as real <= TOLERANCE
  }

  lemma RoundShifts(x: real, n: int)
    ensures Round(x + n as real) == Round(x) + n
  {
  }

  lemma RoundMonotone(x: real, y: real)
    requires x <= y
    ensures Round(x) <= Round(y)
  {
  }

  lemma RoundNear(x: real)
    ensures x - 0.5 < Round(x) as real <= x + 0.5
  {
  }

  lemma CentsNear(dollars: real)
    ensures dollars * 100.0 - 0.5 < Cents(dollars) as real <= dollars * 100.0 + 0.5
  {
    RoundNear(dollars * 100.0);
  }

  /** Whole cents written as dollars read back as the same cents. */
  lemma CentsOfDollars(cents: int)
    ensures Cents(cents as real / 100.0) == cents
  {
    assert cents as real / 100.0 * 100.0 == cents as real;
  }

  lemma CentsShift(dollars: real, more: int)
    ensures Cents(dollars + more as real) == Cents(dollars) + 100 * more
  {
    assert (dollars + more as real) * 100.0 == dollars * 100.0 + (100 * more) as real;
  }

  lemma ProductPositive(x: real, y: real)
    requires x > 0.0 && y > 0.0
    ensures x * y > 0.0
  {
  }

  lemma CancelFactor(p: real, q: real, d: real)
    requires d > 0.0 && p * d <= q * d
    ensures p <= q
  {
    assert (p - q) * d == p * d - q * d;
    if p > q { ProductPositive(p - q, d); }
  }

  /** Quotients at least one divisor apart round to different numbers. */
  lemma RoundQuotientSteps(a: int, b: int, d: int)
    requires d > 0 && b >= a + d
    ensures Round(a as real / d as real) < Round(b as real / d as real)
  {
    var x, y := a as real / d as real, b as real / d as real;
    assert x * d as real == a as real && y * d as real == b as real;
    assert (x + 1.0) * d as real == x * d as real + d as real;
    CancelFactor(x + 1.0, y, d as real);
    RoundShifts(x, 1);
    RoundMonotone(x + 1.0, y);
  }
}
