/** Exact arithmetic helpers shared by the trading engine model.
    Every quantity the engine computes with Python floats is modelled as an exact `real`. */
module Numeric {

  function Abs(x: real): (r: real)
    ensures r >= 0.0
    ensures r == x || r == -x
  {
    if x < 0.0 then -x else x
  }

  function Max(a: real, b: real): (r: real)
    ensures r >= a && r >= b
    ensures r == a || r == b
  {
    if a < b then b else a
  }

  /** Python's one-argument `round`: the nearest integer, a tie going to the even neighbour. */
  function Round(x: real): (n: int)
    ensures -0.5 <= x - n as real <= 0.5
    ensures x - n as real == 0.5 ==> n % 2 == 0
    ensures n as real - x == 0.5 ==> n % 2 == 0
  {
    var f := x.Floor;
    var frac := x - f as real;
    if frac < 0.5 then f
    else if frac > 0.5 then f + 1
    else if f % 2 == 0 then f
    else f + 1
  }

  /** The three properties of `Round` pin the result down: any integer that has them is `Round(x)`. */
  lemma RoundUnique(x: real, m: int)
    requires -0.5 <= x - m as real <= 0.5
    requires x - m as real == 0.5 ==> m % 2 == 0
    requires m as real - x == 0.5 ==> m % 2 == 0
    ensures m == Round(x)
  {
  }

  /** Rounding a whole number gives it back. */
  lemma RoundOfWhole(k: int)
    ensures Round(k as real) == k
  {
    RoundUnique(k as real, k);
  }

  /** `v` is a whole number of `unit`s: Python's `v % unit == 0` over exact reals. */
  predicate MultipleOf(v: real, unit: real)
    requires unit != 0.0
  {
    (v / unit).Floor as real == v / unit
  }

  lemma WholeTimesUnitIsMultiple(k: int, unit: real)
    requires unit != 0.0
    ensures (k as real * unit) / unit == k as real
    ensures MultipleOf(k as real * unit, unit)
  {
  }

  /** `round(x / unit) * unit`: the nearest point of the grid of step `unit`. */
  function Snap(x: real, unit: real): real
    requires unit != 0.0
  {
    Round(x / unit) as real * unit
  }

  /** A snapped value lies on the grid. */
  lemma SnapOnGrid(x: real, unit: real)
    requires unit > 0.0
    ensures MultipleOf(Snap(x, unit), unit)
  {
    var k := Round(x / unit);
    assert Snap(x, unit) == k as real * unit;
    WholeTimesUnitIsMultiple(k, unit);
  }

  /** Snapping to a grid a second time changes nothing. */
  lemma SnapIdempotent(x: real, unit: real)
    requires unit != 0.0
    ensures Snap(Snap(x, unit), unit) == Snap(x, unit)
  {
    var k := Round(x / unit);
    assert Snap(x, unit) == k as real * unit;
    WholeTimesUnitIsMultiple(k, unit);
    RoundOfWhole(k);
  }

  /** A grid point is its own nearest grid point. */
  lemma SnapOfMultiple(x: real, unit: real)
    requires unit != 0.0
    requires MultipleOf(x, unit)
    ensures Snap(x, unit) == x
  {
    var k := (x / unit).Floor;
    RoundOfWhole(k);
  }

  /** Snapping a value of at least one positive unit gives at least one unit. */
  lemma SnapAtLeastUnit(x: real, unit: real)
    requires unit > 0.0
    requires x >= unit
    ensures Snap(x, unit) >= unit
    ensures Round(x / unit) >= 1
  {
    var k := Round(x / unit);
    assert x / unit >= 1.0;
    assert k >= 1;
    assert k as real * unit >= 1.0 * unit;
  }

  /** `b` raised to the whole power `n` (Python's `pow(b, float(n))` for a whole exponent). */
  function Pow(b: real, n: nat): real
  {
    if n == 0 then 1.0 else b * Pow(b, n - 1)
  }

  lemma {:induction false} PowAtLeastOne(b: real, n: nat)
    requires b >= 1.0
    ensures Pow(b, n) >= 1.0
  {
    if n > 0 {
      PowAtLeastOne(b, n - 1);
      assert b * Pow(b, n - 1) >= Pow(b, n - 1);
    }
  }

  /** For a base above one, each further power is strictly larger. */
  lemma {:induction false} PowStrictlyIncreasing(b: real, n: nat)
    requires b > 1.0
    ensures Pow(b, n + 1) > Pow(b, n)
  {
    PowAtLeastOne(b, n);
    assert Pow(b, n + 1) - Pow(b, n) == (b - 1.0) * Pow(b, n);
  }

  lemma {:induction false} PowMonotone(b: real, m: nat, n: nat)
    requires b > 1.0
    requires m < n
    ensures Pow(b, m) < Pow(b, n)
    decreases n - m
  {
    PowStrictlyIncreasing(b, m);
    if m + 1 < n {
      PowMonotone(b, m + 1, n);
    }
  }

  /** A larger non-negative base gives a power at least as large. */
  lemma {:induction false} PowMonotoneInBase(a: real, b: real, n: nat)
    requires 0.0 <= a <= b
    ensures 0.0 <= Pow(a, n) <= Pow(b, n)
  {
    if n > 0 {
      PowMonotoneInBase(a, b, n - 1);
      assert a * Pow(a, n - 1) <= b * Pow(a, n - 1);
      assert b * Pow(a, n - 1) <= b * Pow(b, n - 1);
    }
  }

  function IntAbs(x: int): (r: int)
    ensures r >= 0
    ensures r == x || r == -x
  {
    if x < 0 then -x else x
  }
}
