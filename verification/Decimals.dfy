/** Exact decimals as reals, with the explicit roundings the code makes. */
module Decimals {

  function Ceiling(x: real): int { -((-x).Floor) }

  /** The nearest integer, ties to the even one. */
  function RoundHalfEven(x: real): int {
    var f := x.Floor;
    var rest := x - f as real;
    if rest < 0.5 then f else if rest > 0.5 then f + 1 else if f % 2 == 0 then f else f + 1
  }

  /** `x` rounded to a multiple of `unit`. */
  function Quantize(x: real, unit: real): real
    requires unit > 0.0
  {
    RoundHalfEven(x / unit) as real * unit
  }

  const MICRO := 0.000001

  /** `x` rounded to six decimals. */
  function Round6(x: real): real { Quantize(x, MICRO) }

  predicate OnGrid(x: real, unit: real)
    requires unit > 0.0
  {
    (x / unit).Floor as real * unit == x
  }

  lemma NearestInteger(x: real, k: int)
    ensures -0.5 <= RoundHalfEven(x) as real - x <= 0.5
    ensures k as real <= x ==> k <= RoundHalfEven(x)
    ensures x <= k as real ==> RoundHalfEven(x) <= k
  {
  }

  lemma ScaleBack(x: real, unit: real)
    requires unit > 0.0
    ensures x / unit * unit == x
  {
  }

  lemma ScaleOrder(a: real, b: real, unit: real)
    requires unit > 0.0
    ensures a <= b <==> a * unit <= b * unit
  {
    if a <= b { assert (b - a) * unit >= 0.0; } else { assert (a - b) * unit > 0.0; }
  }

  lemma DivideOrder(a: real, b: real, unit: real)
    requires unit > 0.0
    ensures a <= b <==> a / unit <= b / unit
  {
    ScaleOrder(a / unit, b / unit, unit);
  }

  lemma CeilingIsLeast(x: real, k: int)
    ensures x <= Ceiling(x) as real && (x <= k as real ==> Ceiling(x) <= k)
  {
  }

  lemma HalfUnit(d: real, unit: real)
    requires unit > 0.0 && -0.5 <= d <= 0.5
    ensures -unit / 2.0 <= d * unit <= unit / 2.0
  {
    ScaleOrder(d, 0.5, unit);
    ScaleOrder(-0.5, d, unit);
  }

  /** How far rounding moves a value, in units. */
  function Offset(x: real, unit: real): real
    requires unit > 0.0
  {
    RoundHalfEven(x / unit) as real - x / unit
  }

  lemma QuantizeOf(x: real, unit: real)
    requires unit > 0.0
    ensures Quantize(x, unit) - x == Offset(x, unit) * unit && -0.5 <= Offset(x, unit) <= 0.5
  {
    var y, r := x / unit, RoundHalfEven(x / unit) as real;
    ScaleBack(x, unit);
    NearestInteger(y, 0);
    hide RoundHalfEven;
    assert (r - y) * unit == r * unit - y * unit;
  }

  /** Rounding moves a value by at most half a unit. */
  lemma QuantizeIsNear(x: real, unit: real)
    requires unit > 0.0
    ensures -unit / 2.0 <= Quantize(x, unit) - x <= unit / 2.0
  {
    QuantizeOf(x, unit);
    var d := Offset(x, unit);
    var moved := d * unit;
    hide Quantize, Offset;
    HalfUnit(d, unit);
    assert -unit / 2.0 <= moved <= unit / 2.0;
    assert Quantize(x, unit) - x == moved;
  }

  lemma GridPoint(g: real, unit: real)
    requires unit > 0.0 && OnGrid(g, unit)
    ensures g / unit == (g / unit).Floor as real
  {
    var k := (g / unit).Floor as real;
    DivideOrder(g, k * unit, unit);
    DivideOrder(k * unit, g, unit);
    assert k * unit / unit == k;
  }

  /** Rounding never crosses a point of the grid, from either side. */
  lemma QuantizeKeepsSide(x: real, g: real, unit: real)
    requires unit > 0.0 && OnGrid(g, unit)
    ensures x <= g ==> Quantize(x, unit) <= g
    ensures g <= x ==> g <= Quantize(x, unit)
  {
    var k, r := (g / unit).Floor, RoundHalfEven(x / unit);
    GridPoint(g, unit);
    NearestInteger(x / unit, k);
    DivideOrder(x, g, unit);
    DivideOrder(g, x, unit);
    ScaleOrder(r as real, k as real, unit);
    ScaleOrder(k as real, r as real, unit);
  }
}
