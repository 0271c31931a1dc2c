/**
 The sampling helper of the generator: `getRandomValue(min, max, decimals)`
 takes one uniform draw `r` in [0, 1), scales it into [min, max) and rounds
 the result to `decimals` places the way `Number.prototype.toFixed` of
 ECMA-262 does (the nearest multiple, ties away from zero; no rounding at all
 from 10^21 on), after which `parseFloat` reads the digits back. The
 generator only ever asks for 0 or 2 places. Numbers are exact reals here;
 binary floating-point error is not modelled.
 */
module Numeric {

  function Abs(x: real): real {
    if x < 0.0 then -x else x
  }

  /** A uniform draw as `Math.random()` returns it. */
  predicate Unit(r: real) {
    0.0 <= r < 1.0
  }

  /** The `decimals` argument of `getRandomValue`: 0, or the default 2. */
  datatype Precision = NoDecimals | TwoDecimals

  /** `y` is a whole number. */
  predicate IsInt(y: real) {
    y.Floor as real == y
  }

  /** `v` is printed exactly with the given number of decimals. */
  predicate HasDecimals(v: real, prec: Precision) {
    match prec
    case NoDecimals => IsInt(v)
    case TwoDecimals => IsInt(v * 100.0)
  }

  /** Half a unit in the last printed place. */
  function HalfUnit(prec: Precision): real {
    match prec
    case NoDecimals => 0.5
    case TwoDecimals => 0.005
  }

  /** From this magnitude on `toFixed` prints the number unrounded. */
  const ToFixedLimit: real := 1_000_000_000_000_000_000_000.0

  /** The whole number nearest to a non-negative `y`, the larger one on a tie. */
  function RoundWhole(y: real): real {
    (y + 0.5).Floor as real
  }

  /** The multiple of 10^-decimals nearest to a non-negative `y`, the larger one on a tie. */
  function RoundHalfUp(y: real, prec: Precision): real {
    match prec
    case NoDecimals => RoundWhole(y)
    case TwoDecimals => RoundWhole(y * 100.0) / 100.0
  }

  /** `parseFloat(x.toFixed(decimals))`: a negative number has its magnitude rounded. */
  function ToFixed(x: real, prec: Precision): (v: real)
    ensures Abs(v - x) <= HalfUnit(prec)
    ensures Abs(x) < ToFixedLimit ==> HasDecimals(v, prec)
    ensures HasDecimals(x, prec) ==> v == x
    ensures x >= 0.0 ==> v >= 0.0
  {
    if Abs(x) >= ToFixedLimit then x
    else if x < 0.0 then
      RoundHalfUpFacts(-x, prec);
      NegatedDecimals(x, prec);
      NegatedDecimals(RoundHalfUp(-x, prec), prec);
      -RoundHalfUp(-x, prec)
    else
      RoundHalfUpFacts(x, prec);
      RoundHalfUp(x, prec)
  }

  lemma FloorUnique(y: real, k: int)
    requires k as real <= y < k as real + 1.0
    ensures y.Floor == k
  {
  }

  lemma RoundWholeFacts(y: real)
    requires y >= 0.0
    ensures RoundWhole(y) >= 0.0
    ensures IsInt(RoundWhole(y))
    ensures Abs(RoundWhole(y) - y) <= 0.5
    ensures IsInt(y) ==> RoundWhole(y) == y
  {
    var k := (y + 0.5).Floor;
    FloorUnique(k as real, k);
    if IsInt(y) {
      FloorUnique(y + 0.5, y.Floor);
    }
  }

  /**
   Rounding a non-negative number yields a non-negative multiple of the
   precision, at most half a unit away, and leaves such a multiple unchanged.
   */
  lemma RoundHalfUpFacts(y: real, prec: Precision)
    requires y >= 0.0
    ensures RoundHalfUp(y, prec) >= 0.0
    ensures HasDecimals(RoundHalfUp(y, prec), prec)
    ensures Abs(RoundHalfUp(y, prec) - y) <= HalfUnit(prec)
    ensures HasDecimals(y, prec) ==> RoundHalfUp(y, prec) == y
  {
    match prec
    case NoDecimals =>
      RoundWholeFacts(y);
    case TwoDecimals =>
      RoundWholeFacts(y * 100.0);
      var n := RoundWhole(y * 100.0);
      assert (n / 100.0) * 100.0 == n;
  }

  lemma NegatedDecimals(v: real, prec: Precision)
    ensures HasDecimals(v, prec) <==> HasDecimals(-v, prec)
  {
    var y := match prec case NoDecimals => v case TwoDecimals => v * 100.0;
    assert HasDecimals(v, prec) == IsInt(y);
    assert HasDecimals(-v, prec) == IsInt(-y);
    if IsInt(y) {
      FloorUnique(-y, -(y.Floor));
    }
    if IsInt(-y) {
      FloorUnique(y, -((-y).Floor));
    }
  }

  /** `Math.random() * (max - min) + min`, before any rounding. */
  function Sample(r: real, lo: real, hi: real): real {
    r * (hi - lo) + lo
  }

  /** A draw lands in [lo, hi) when lo < hi, and on lo itself when lo == hi. */
  lemma SampleInRange(r: real, lo: real, hi: real)
    requires Unit(r) && lo <= hi
    ensures lo <= Sample(r, lo, hi) <= hi
    ensures lo < hi ==> Sample(r, lo, hi) < hi
  {
    var d := hi - lo;
    var m := r * d;
    assert Sample(r, lo, hi) == m + lo;
    MulNonneg(r, d);
    MulAtMost(r, d);
  }

  lemma MulNonneg(a: real, b: real)
    requires a >= 0.0 && b >= 0.0
    ensures a * b >= 0.0
  {
  }

  lemma MulAtMost(r: real, d: real)
    requires 0.0 <= r < 1.0 && d >= 0.0
    ensures r * d <= d
    ensures d > 0.0 ==> r * d < d
  {
    assert d - r * d == (1.0 - r) * d;
    MulNonneg(1.0 - r, d);
  }

  /** `getRandomValue(min, max, decimals)` with the draw `r` made explicit. */
  function GetRandomValue(r: real, lo: real, hi: real, prec: Precision): real {
    ToFixed(Sample(r, lo, hi), prec)
  }

  /** A sampling range with its rounding precision, as every call site writes one. */
  datatype Range = Range(lo: real, hi: real, prec: Precision)

  /** Bounds in order, non-negative, below the unrounded magnitude, and exactly printable. */
  predicate ValidRange(rg: Range) {
    && 0.0 <= rg.lo <= rg.hi < ToFixedLimit
    && HasDecimals(rg.lo, rg.prec)
    && HasDecimals(rg.hi, rg.prec)
  }

  /** A rounded value inside the closed range, printed with exactly the range's precision. */
  predicate InRange(v: real, rg: Range) {
    rg.lo <= v <= rg.hi && HasDecimals(v, rg.prec)
  }

  /** A fresh value drawn in `rg`: `getRandomValue(rg.lo, rg.hi, decimals)`. */
  function Draw(r: real, rg: Range): (v: real)
    requires Unit(r) && ValidRange(rg)
    ensures InRange(v, rg)
    ensures Abs(v - Sample(r, rg.lo, rg.hi)) <= HalfUnit(rg.prec)
  {
    RoundedSampleInRange(r, rg);
    GetRandomValue(r, rg.lo, rg.hi, rg.prec)
  }

  /**
   Rounding cannot push a sample out of its range: both bounds are themselves
   printable at the range's precision, so the nearest printable value to a
   sample in [lo, hi) lies in [lo, hi].
   */
  lemma RoundedSampleInRange(r: real, rg: Range)
    requires Unit(r) && ValidRange(rg)
    ensures InRange(GetRandomValue(r, rg.lo, rg.hi, rg.prec), rg)
  {
    var x := Sample(r, rg.lo, rg.hi);
    SampleInRange(r, rg.lo, rg.hi);
    RoundHalfUpFacts(x, rg.prec);
    match rg.prec
    case NoDecimals =>
      RoundBetween(x, rg.lo, rg.hi);
    case TwoDecimals =>
      RoundBetween(x * 100.0, rg.lo * 100.0, rg.hi * 100.0);
  }

  /** Rounding to a whole number stays between two whole bounds around `y`. */
  lemma RoundBetween(y: real, lo: real, hi: real)
    requires IsInt(lo) && IsInt(hi) && 0.0 <= lo <= y <= hi
    ensures lo <= RoundWhole(y) <= hi
  {
    var k := (y + 0.5).Floor;
    if k as real > hi {
      FloorUnique(hi, k - 1);
    }
    if k as real < lo {
      FloorUnique(lo, k);
    }
  }

  /**
   `getRandomValue(v * 0.95, v * 1.05)`, the prediction drift: the unrounded
   sample lies within 5% of `v`, and rounding to two places moves it by at
   most half a hundredth.
   */
  function Jitter(r: real, v: real): (w: real)
    requires Unit(r)
    ensures Abs(Sample(r, v * 0.95, v * 1.05) - v) <= Abs(v) / 20.0
    ensures Abs(w - Sample(r, v * 0.95, v * 1.05)) <= 0.005
    ensures Abs(w - v) <= Abs(v) / 20.0 + 0.005
  {
    JitterWithinFivePercent(r, v);
    GetRandomValue(r, v * 0.95, v * 1.05, TwoDecimals)
  }

  lemma JitterWithinFivePercent(r: real, v: real)
    requires Unit(r)
    ensures Abs(Sample(r, v * 0.95, v * 1.05) - v) <= Abs(v) / 20.0
  {
    var t := r - 0.5;
    var u := v / 10.0;
    assert Sample(r, v * 0.95, v * 1.05) - v == t * u;
    AbsProduct(t, u);
    assert Abs(t) <= 0.5;
    assert Abs(u) == Abs(v) / 10.0;
    MulAtMostHalf(Abs(t), Abs(u));
    assert Abs(t * u) <= Abs(v) / 20.0;
  }

  lemma AbsProduct(a: real, b: real)
    ensures Abs(a * b) == Abs(a) * Abs(b)
  {
  }

  lemma MulAtMostHalf(a: real, b: real)
    requires 0.0 <= a <= 0.5 && b >= 0.0
    ensures a * b <= b / 2.0
  {
    assert b / 2.0 - a * b == (0.5 - a) * b;
    MulNonneg(0.5 - a, b);
  }
}
