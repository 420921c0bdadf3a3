/** The decimal grid of `toFixedNumber`: every number the backtester reports is snapped to it. */
module Rounding {
  import opened Prelude

  function Pow10(d: nat): (p: int)
    ensures p >= 1
  {
    if d == 0 then 1 else 10 * Pow10(d - 1)
  }

  /** `Math.round`: halves go up, also for negative numbers. */
  function RoundHalfUp(x: real): int { (x + 0.5).Floor }

  function GridPoint(n: int, d: nat): real { n as real / Pow10(d) as real }

  function Scaled(x: real, d: nat): real { x * Pow10(d) as real }

  /** Index of the grid point that `toFixedNumber(x, d)` returns. */
  function GridIndex(x: real, d: nat): int { RoundHalfUp(Scaled(x, d)) }

  function ToFixed(x: real, d: nat): real { GridPoint(GridIndex(x, d), d) }

  ghost predicate OnGrid(x: real, d: nat) { exists n :: x == GridPoint(n, d) }

  lemma GridScale(n: int, d: nat)
    ensures Scaled(GridPoint(n, d), d) == n as real
    ensures GridIndex(GridPoint(n, d), d) == n
  {
  }

  /** The values `toFixedNumber` leaves alone are exactly the grid points. */
  lemma FixedPointsAreGrid(x: real, d: nat)
    ensures ToFixed(x, d) == x <==> OnGrid(x, d)
  {
    if OnGrid(x, d) {
      var n :| x == GridPoint(n, d);
      GridScale(n, d);
    }
    if ToFixed(x, d) == x {
      var n := GridIndex(x, d);
      assert x == GridPoint(n, d);
    }
  }

  lemma SumOfGridPoints(m: int, n: int, d: nat)
    ensures GridPoint(m, d) + GridPoint(n, d) == GridPoint(m + n, d)
  {
    var p := Pow10(d) as real;
    assert m as real / p + n as real / p == (m as real + n as real) / p;
  }

  lemma GridClosedUnderSum(x: real, y: real, d: nat)
    requires OnGrid(x, d) && OnGrid(y, d)
    ensures OnGrid(x + y, d)
  {
    var m :| x == GridPoint(m, d);
    var n :| y == GridPoint(n, d);
    SumOfGridPoints(m, n, d);
  }

  lemma ScaleUp(x: real, y: real, p: real)
    requires p > 0.0
    ensures x <= y <==> x * p <= y * p
  {
  }

  lemma ScaleDown(x: real, y: real, p: real)
    requires p > 0.0
    ensures x <= y <==> x / p <= y / p
  {
    var a, b := x / p, y / p;
    assert a * p == x && b * p == y;
    ScaleUp(a, b, p);
  }

  lemma GridOrder(m: int, n: int, d: nat)
    ensures m <= n <==> GridPoint(m, d) <= GridPoint(n, d)
  {
    ScaleDown(m as real, n as real, Pow10(d) as real);
  }

  lemma ScaledOrder(x: real, y: real, d: nat)
    ensures x <= y <==> Scaled(x, d) <= Scaled(y, d)
  {
    ScaleUp(x, y, Pow10(d) as real);
  }

  /** Rounding keeps order, so inequalities between raw statistics survive in a report. */
  lemma ToFixedMonotone(x: real, y: real, d: nat)
    requires x <= y
    ensures ToFixed(x, d) <= ToFixed(y, d)
  {
    var m, n := GridIndex(x, d), GridIndex(y, d);
    assert m <= n by { ScaledOrder(x, y, d); }
    GridOrder(m, n, d);
  }

  lemma ScaledDistance(x: real, n: int, d: nat)
    ensures Scaled(AbsReal(x - GridPoint(n, d)), d) == AbsReal(Scaled(x, d) - n as real)
  {
    var p := Pow10(d) as real;
    var g := GridPoint(n, d);
    assert g * p == n as real;
    assert (x - g) * p == x * p - n as real;
  }

  /** `toFixedNumber` picks a nearest grid point. */
  lemma ToFixedIsNearest(x: real, n: int, d: nat)
    ensures AbsReal(x - ToFixed(x, d)) <= AbsReal(x - GridPoint(n, d))
  {
    var k := GridIndex(x, d);
    NearestInteger(Scaled(x, d), n);
    ScaledDistance(x, k, d);
    ScaledDistance(x, n, d);
    ScaledOrder(AbsReal(x - GridPoint(k, d)), AbsReal(x - GridPoint(n, d)), d);
  }

  lemma NearestInteger(s: real, n: int)
    ensures AbsReal(s - RoundHalfUp(s) as real) <= AbsReal(s - n as real)
  {
    var k := RoundHalfUp(s);
    var off, gap := s - k as real, k - n;
    assert -0.5 <= off < 0.5;
    assert s - n as real == off + gap as real;
    if gap >= 1 {
      assert gap as real >= 1.0;
    } else if gap <= -1 {
      assert gap as real <= -1.0;
    }
  }

  /** By how much x was rounded up, in doubled units of the last digit. */
  function Lift(x: real, d: nat): real { 2.0 * (Scaled(ToFixed(x, d), d) - Scaled(x, d)) }

  /** Rounding moves a value by at most half a unit of the last digit, and an exact half goes up. */
  lemma ToFixedWithin(x: real, d: nat)
    ensures -1.0 < Lift(x, d) <= 1.0
  {
    GridScale(GridIndex(x, d), d);
  }
}
