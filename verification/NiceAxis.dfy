/**
 * The "nice" value axis of web/src/chart.ts, over exact reals.
 *
 * `Math.floor(Math.log10(v))` is the one exponent `e` with 10^e <= v < 10^(e+1); it is found here by
 * search, and proved to be that exponent.
 */
module NiceAxis {
  import opened Prelude

  /** A power of ten with an integer exponent. */
  function Pow10(e: int): (r: real)
    ensures r > 0.0
    decreases if e >= 0 then e else -e
  {
    if e == 0 then 1.0 else if e > 0 then 10.0 * Pow10(e - 1) else Pow10(e + 1) / 10.0
  }

  lemma Pow10Next(e: int)
    ensures Pow10(e + 1) == 10.0 * Pow10(e)
  {}

  predicate IsExponent(v: real, e: int) {
    Pow10(e) <= v < Pow10(e + 1)
  }

  lemma {:induction false} Pow10Monotone(d: int, e: int)
    requires d <= e
    ensures Pow10(d) <= Pow10(e)
    decreases e - d
  {
    if d < e {
      Pow10Monotone(d, e - 1);
      Pow10Next(e - 1);
    }
  }

  lemma ExponentIsUnique(v: real, d: int, e: int)
    requires IsExponent(v, d) && IsExponent(v, e)
    ensures d == e
  {
    if d < e { Pow10Monotone(d + 1, e); } else if e < d { Pow10Monotone(e + 1, d); }
  }

  /** Some power of ten exceeds any number. */
  lemma {:induction false} Pow10Exceeds(n: nat)
    ensures Pow10(n) >= (n + 1) as real
  {
    if n > 0 { Pow10Exceeds(n - 1); }
  }

  /** Powers with opposite exponents are reciprocal. */
  lemma {:induction false} Pow10Reciprocal(n: int)
    requires n >= 0
    ensures Pow10(-n) * Pow10(n) == 1.0
    decreases n
  {
    if n > 0 {
      Pow10Reciprocal(n - 1);
      Pow10Next(-n);
      Regroup(Pow10(-n), Pow10(n - 1));
    }
  }

  lemma Regroup(a: real, b: real)
    ensures a * (10.0 * b) == (10.0 * a) * b
  {}

  lemma UpperExponent(v: real) returns (hi: nat)
    requires v > 0.0
    ensures Pow10(hi) > v
  {
    hi := v.Floor + 1;
    Pow10Exceeds(hi);
  }

  lemma LowerExponent(v: real) returns (lo: int)
    requires v > 0.0
    ensures Pow10(lo) <= v
  {
    var r := Inverse(v);
    var n: int := UpperExponent(r);
    Pow10Reciprocal(n);
    Reciprocal(v, r, Pow10(n), Pow10(-n));
    lo := -n;
  }

  lemma Inverse(v: real) returns (r: real)
    requires v > 0.0
    ensures r * v == 1.0 && r > 0.0
  {
    r := 1.0 / v;
  }

  lemma Reciprocal(v: real, r: real, p: real, q: real)
    requires v > 0.0 && r * v == 1.0 && p > r && q * p == 1.0 && p > 0.0
    ensures q <= v
  {
    ScaleUp(r, p, v);
    assert p * v == v * p;
    ScaleDown(q, v, p);
  }

  lemma ScaleDown(a: real, b: real, c: real)
    requires c > 0.0 && a * c <= b * c
    ensures a <= b
  {
    if b < a { ScaleUp(b, a, c); }
  }

  lemma ScaleUp(a: real, b: real, c: real)
    requires a < b && c > 0.0
    ensures a * c < b * c
  {}

  /** `Math.floor(Math.log10(v))`, by search from the power of ten nearest to one. */
  method DecimalExponent(v: real) returns (e: int)
    requires v > 0.0
    ensures IsExponent(v, e)
  {
    e := 0;
    ghost var lo := LowerExponent(v);
    ghost var hi := UpperExponent(v);
    while Pow10(e) > v
      decreases e - lo
    {
      if e <= lo { Pow10Monotone(e, lo); }
      e := e - 1;
    }
    while Pow10(e + 1) <= v
      invariant Pow10(e) <= v
      decreases hi - e
    {
      if e + 1 >= hi { Pow10Monotone(hi, e + 1); }
      e := e + 1;
    }
  }

  // ---------------------------------------------------------------- niceNum

  /** The leading digit `niceNum` chooses for a fraction in [1, 10). */
  function NiceDigit(frac: real, round: bool): int {
    if round then
      if frac < 1.5 then 1 else if frac < 3.0 then 2 else if frac < 7.0 then 5 else 10
    else
      if frac <= 1.0 then 1 else if frac <= 2.0 then 2 else if frac <= 5.0 then 5 else 10
  }

  /** `niceNum`, given the decimal exponent of its argument. */
  function NiceNum(value: real, e: int, round: bool): real {
    if value <= 0.0 then 1.0 else NiceDigit(value / Pow10(e), round) as real * Pow10(e)
  }

  // ---------------------------------------------------------------- niceAxis

  datatype Axis = Axis(min: real, max: real, step: real, ticks: seq<real>)

  function FloorTo(x: real, step: real): int
    requires step > 0.0
  {
    (x / step).Floor
  }

  function CeilTo(x: real, step: real): int
    requires step > 0.0
  {
    -(-(x / step)).Floor
  }

  /** `count + 1` ticks from `min` on. */
  function Ticks(min: real, step: real, count: nat): (r: seq<real>)
    ensures |r| == count + 1 && forall i :: 0 <= i <= count ==> r[i] == min + i as real * step
  {
    seq(count + 1, i => min + i as real * step)
  }

  /** `niceAxis`; a bound that is not finite is `None`. */
  method NiceAxisFor(dataMin: Option<real>, dataMax: Option<real>, targetTicks: int) returns (axis: Axis)
    ensures (dataMin.None? || dataMax.None? || dataMin == dataMax) ==>
      var c := if dataMin.Some? then dataMin.value else 0.0; axis == Axis(c - 1.0, c + 1.0, 1.0, [c - 1.0, c, c + 1.0])
    ensures dataMin.Some? && dataMax.Some? && dataMin.value < dataMax.value ==>
      exists e :: IsExponent(Interval(dataMin.value, dataMax.value, targetTicks), e)
        && axis == AxisOf(dataMin.value, dataMax.value, targetTicks, e)
  {
    if dataMin.None? || dataMax.None? || dataMin == dataMax {
      var c := if dataMin.Some? then dataMin.value else 0.0;
      return Axis(c - 1.0, c + 1.0, 1.0, [c - 1.0, c, c + 1.0]);
    }
    var interval := Interval(dataMin.value, dataMax.value, targetTicks);
    var step := 1.0;
    ghost var e := 0;
    if dataMin.value < dataMax.value {
      IntervalPositive(dataMin.value, dataMax.value, targetTicks);
      var exponent := DecimalExponent(interval);
      step := NiceNum(interval, exponent, true);
      e := exponent;
      NiceStepPositive(interval, e);
    }
    axis := BuildAxis(dataMin.value, dataMax.value, step);
    assert dataMin.value < dataMax.value ==> axis == AxisOf(dataMin.value, dataMax.value, targetTicks, e);
  }

  /** The width of one interval if there were exactly the wished-for number of them. */
  function Interval(lo: real, hi: real, targetTicks: int): real {
    (hi - lo) / (if targetTicks > 1 then targetTicks else 1) as real
  }

  lemma IntervalPositive(lo: real, hi: real, targetTicks: int)
    requires lo < hi
    ensures Interval(lo, hi, targetTicks) > 0.0
  {}

  lemma NiceStepPositive(v: real, e: int)
    ensures NiceNum(v, e, true) > 0.0
  {}

  /** The number of steps from the rounded lower to the rounded upper bound, at least one. */
  function Count(lo: real, hi: real, step: real): nat
    requires step > 0.0
  {
    var n := CeilTo(hi, step) - FloorTo(lo, step);
    if n > 1 then n else 1
  }

  function AxisWith(lo: real, hi: real, step: real): Axis
    requires step > 0.0
  {
    var min := FloorTo(lo, step) as real * step;
    Axis(min, CeilTo(hi, step) as real * step, step, Ticks(min, step, Count(lo, hi, step)))
  }

  function AxisOf(lo: real, hi: real, targetTicks: int, e: int): Axis
    requires lo < hi
  {
    IntervalPositive(lo, hi, targetTicks);
    NiceStepPositive(Interval(lo, hi, targetTicks), e);
    AxisWith(lo, hi, NiceNum(Interval(lo, hi, targetTicks), e, true))
  }

  /** `Math.round`. */
  function JsRound(x: real): int { (x + 0.5).Floor }

  /** Rounded bounds are whole steps apart, so deriving the count by rounding loses nothing. */
  lemma CountByRounding(a: int, b: int, step: real)
    requires step > 0.0
    ensures JsRound((b as real * step - a as real * step) / step) == b - a
  {
    var d := (b - a) as real;
    Spread(a as real, b as real, step);
    assert b as real * step - a as real * step == d * step;
    Cancel(d, step);
    assert (b as real * step - a as real * step) / step == d;
    RoundWhole(b - a);
  }

  lemma Spread(a: real, b: real, step: real)
    ensures b * step - a * step == (b - a) * step
  {}

  lemma RoundWhole(n: int)
    ensures JsRound(n as real) == n
  {}

  lemma Cancel(d: real, step: real)
    requires step > 0.0
    ensures d * step / step == d
  {}

  method BuildAxis(lo: real, hi: real, step: real) returns (axis: Axis)
    requires step > 0.0
    ensures axis == AxisWith(lo, hi, step)
  {
    var min := FloorTo(lo, step) as real * step;
    var max := CeilTo(hi, step) as real * step;
    var count := StepsBetween(FloorTo(lo, step), CeilTo(hi, step), min, max, step);
    if count < 1 { count := 1; }
    assert count == Count(lo, hi, step);
    var ticks := BuildTicks(min, step, count);
    axis := Axis(min, max, step, ticks);
  }

  /** `Math.round((max - min) / step)`. */
  method StepsBetween(ghost a: int, ghost b: int, min: real, max: real, step: real) returns (n: int)
    requires step > 0.0 && min == a as real * step && max == b as real * step
    ensures n == b - a
  {
    n := JsRound((max - min) / step);
    CountByRounding(a, b, step);
  }

  method BuildTicks(min: real, step: real, count: nat) returns (ticks: seq<real>)
    ensures ticks == Ticks(min, step, count)
  {
    ticks := [];
    for i := 0 to count + 1
      invariant |ticks| == i && forall j :: 0 <= j < i ==> ticks[j] == min + j as real * step
    {
      ticks := ticks + [min + i as real * step];
    }
  }

  // ---------------------------------------------------------------- theorems

  /** The step is within these factors of the interval asked for. */
  lemma StepNearInterval(v: real, e: int)
    requires v > 0.0 && IsExponent(v, e)
    ensures var step := NiceNum(v, e, true); 0.6 * step <= v < 1.5 * step
  {
    var p, frac := Pow10(e), v / Pow10(e);
    Pow10Next(e);
    FractionBounds(v, p, frac);
    DigitNearFraction(frac);
    ScaleBounds(frac, NiceDigit(frac, true) as real, p, v);
  }

  lemma FractionBounds(v: real, p: real, frac: real)
    requires p > 0.0 && frac == v / p && p <= v < 10.0 * p
    ensures frac * p == v && 1.0 <= frac < 10.0
  {
    assert frac * p == v;
    if frac < 1.0 { ScaleUp(frac, 1.0, p); }
    if frac >= 10.0 { if frac > 10.0 { ScaleUp(10.0, frac, p); } }
  }

  lemma DigitNearFraction(frac: real)
    requires 1.0 <= frac < 10.0
    ensures var c := NiceDigit(frac, true) as real; 0.6 * c <= frac < 1.5 * c
  {}

  lemma ScaleBounds(frac: real, c: real, p: real, v: real)
    requires p > 0.0 && frac * p == v && 0.6 * c <= frac < 1.5 * c
    ensures 0.6 * (c * p) <= v < 1.5 * (c * p)
  {
    ScaleUp(frac, 1.5 * c, p);
    assert (1.5 * c) * p == 1.5 * (c * p);
    if 0.6 * c < frac { ScaleUp(0.6 * c, frac, p); }
    assert (0.6 * c) * p == 0.6 * (c * p);
  }

  /** Dividing by the step: bounds on the data range counted in steps. */
  lemma RangeInSteps(lo: real, hi: real, n: real, v: real, step: real)
    requires step > 0.0 && n >= 1.0 && v == (hi - lo) / n && 0.6 * step <= v < 1.5 * step
    ensures 0.6 * n <= hi / step - lo / step < 1.5 * n
  {
    var r := (hi - lo) / step;
    assert r == hi / step - lo / step;
    assert v * n == hi - lo;
    assert r * step == hi - lo;
    var u := v / step;
    assert u * step == v;
    UnitBounds(v, step, u);
    assert (u * n) * step == r * step by { assert (u * n) * step == (u * step) * n; }
    SameFactor(u * n, r, step);
    if u > 0.6 { ScaleUp(0.6, u, n); }
    ScaleUp(u, 1.5, n);
  }

  lemma UnitBounds(v: real, step: real, u: real)
    requires step > 0.0 && u * step == v && 0.6 * step <= v < 1.5 * step
    ensures 0.6 <= u < 1.5
  {
    if u < 0.6 { ScaleUp(u, 0.6, step); }
    if u >= 1.5 { if u > 1.5 { ScaleUp(1.5, u, step); } }
  }

  lemma SameFactor(a: real, b: real, c: real)
    requires c > 0.0 && a * c == b * c
    ensures a == b
  {
    if a < b { ScaleUp(a, b, c); } else if b < a { ScaleUp(b, a, c); }
  }

  lemma FloorCeil(x: real, step: real)
    requires step > 0.0
    ensures FloorTo(x, step) as real <= x / step < FloorTo(x, step) as real + 1.0
    ensures CeilTo(x, step) as real - 1.0 < x / step <= CeilTo(x, step) as real
    ensures FloorTo(x, step) as real * step <= x <= CeilTo(x, step) as real * step
  {
    var q := x / step;
    assert q * step == x;
    if FloorTo(x, step) as real < q { ScaleUp(FloorTo(x, step) as real, q, step); }
    if q < CeilTo(x, step) as real { ScaleUp(q, CeilTo(x, step) as real, step); }
  }

  /**
   * The axis covers the data; its step is 1, 2, 5 or 10 times a power of ten; the first and last ticks
   * are its bounds; and the number of intervals is within the given factors of the target.
   */
  lemma AxisIsNice(lo: real, hi: real, targetTicks: int, e: int)
    requires lo < hi && targetTicks >= 1 && IsExponent(Interval(lo, hi, targetTicks), e)
    ensures var a := AxisOf(lo, hi, targetTicks, e);
      && a.min <= lo && hi <= a.max
      && (a.step == Pow10(e) || a.step == 2.0 * Pow10(e) || a.step == 5.0 * Pow10(e) || a.step == 10.0 * Pow10(e))
      && a.ticks[0] == a.min && a.ticks[|a.ticks| - 1] == a.max
      && 0.6 * targetTicks as real <= (|a.ticks| - 1) as real < 1.5 * targetTicks as real + 2.0
  {
    var v := Interval(lo, hi, targetTicks);
    IntervalPositive(lo, hi, targetTicks);
    NiceStepPositive(v, e);
    StepNearInterval(v, e);
    StepIsNice(v, e);
    AxisCovers(lo, hi, targetTicks as real, v, NiceNum(v, e, true));
  }

  /** One, two, five or ten times a power of ten. */
  predicate IsNice(step: real, p: real) { step == p || step == 2.0 * p || step == 5.0 * p || step == 10.0 * p }

  lemma StepIsNice(v: real, e: int)
    requires v > 0.0
    ensures IsNice(NiceNum(v, e, true), Pow10(e))
  {
    assert NiceNum(v, e, true) == NiceDigit(v / Pow10(e), true) as real * Pow10(e);
  }

  lemma AxisCovers(lo: real, hi: real, n: real, v: real, step: real)
    requires lo < hi && n >= 1.0 && step > 0.0 && v == (hi - lo) / n && 0.6 * step <= v < 1.5 * step
    ensures var a := AxisWith(lo, hi, step);
      && a.min <= lo && hi <= a.max
      && a.ticks[0] == a.min && a.ticks[|a.ticks| - 1] == a.max
      && 0.6 * n <= (|a.ticks| - 1) as real < 1.5 * n + 2.0
  {
    FloorCeil(lo, step);
    FloorCeil(hi, step);
    RangeInSteps(lo, hi, n, v, step);
    var a, b := FloorTo(lo, step), CeilTo(hi, step);
    assert b - a >= 1;
    assert a as real * step + (b - a) as real * step == b as real * step;
  }

  /**
   * Which step is taken for an interval `v` between `p` and `10 p`, a power of ten and the next: that power
   * up to one and a half of it, twice it up to three, five times it up to seven, and else the next power.
   */
  lemma {:induction false} StepMeans(v: real, e: int)
    requires v > 0.0
    ensures var p, step := Pow10(e), NiceNum(v, e, true);
      && (v < 1.5 * p ==> step == p)
      && (1.5 * p <= v < 3.0 * p ==> step == 2.0 * p)
      && (3.0 * p <= v < 7.0 * p ==> step == 5.0 * p)
      && (7.0 * p <= v ==> step == 10.0 * p)
  {
    FractionAgainst(v, Pow10(e), 1.5);
    FractionAgainst(v, Pow10(e), 3.0);
    FractionAgainst(v, Pow10(e), 7.0);
  }

  lemma {:induction false} FractionAgainst(v: real, p: real, c: real)
    requires p > 0.0
    ensures v < c * p <==> v / p < c
  {
    var f := v / p;
    assert f * p == v;
    if f < c { ScaleUp(f, c, p); } else { NotBelow(c, f, p); }
  }

  lemma {:induction false} NotBelow(a: real, b: real, c: real)
    requires a <= b && c > 0.0
    ensures a * c <= b * c
  {}

  /** With the default target of four there are always between three and seven intervals. */
  lemma ThreeToSevenIntervals(lo: real, hi: real, e: int)
    requires lo < hi && IsExponent(Interval(lo, hi, 4), e)
    ensures 3 <= |AxisOf(lo, hi, 4, e).ticks| - 1 <= 7
  {
    AxisIsNice(lo, hi, 4, e);
  }

  /** Both limits are reached. */
  lemma LimitsAreReached()
    ensures IsExponent(Interval(0.0, 12.0, 4), 0) && |AxisOf(0.0, 12.0, 4, 0).ticks| - 1 == 3
    ensures IsExponent(Interval(1.9, 13.5, 4), 0) && |AxisOf(1.9, 13.5, 4, 0).ticks| - 1 == 7
  {
    assert Pow10(0) == 1.0 && Pow10(1) == 10.0;
    assert FloorTo(0.0, 5.0) == 0 && CeilTo(12.0, 5.0) == 3;
    assert FloorTo(1.9, 2.0) == 0 && CeilTo(13.5, 2.0) == 7;
  }
}
