/** Temperature units and pump speed scaling (HomeKit power level in percent versus RPM or GPM). */
module Conversions {
  import opened Wrappers
  import opened Numbers
  import opened Json

  /** `fahrenheitToCelsius`. */
  function FahrenheitToCelsius(f: real): (c: real)
    ensures CelsiusToFahrenheit(c) == f
  {
    (f - 32.0) / 1.8
  }

  /** `celsiusToFahrenheit`. */
  function CelsiusToFahrenheit(c: real): real {
    c * 1.8 + 32.0
  }

  /** Converting to Fahrenheit and back is the identity. */
  lemma CelsiusRoundTrip(c: real)
    ensures FahrenheitToCelsius(CelsiusToFahrenheit(c)) == c
  {
  }

  /** `fahrenheitToCelsius` applied to a JavaScript number: NaN stays NaN. */
  function FahrenheitToCelsiusNumber(f: Number): Number {
    if f.NaN? then NaN else Finite(FahrenheitToCelsius(f.r))
  }

  /** The speed limits of a pump, as read with unary plus from its parameters. */
  datatype SpeedBounds = SpeedBounds(minRpm: Number, maxRpm: Number, minFlow: Number, maxFlow: Number)

  /** The bounds in force: the flow bounds when the speed type is GPM, the RPM bounds otherwise. */
  function Low(isGpm: bool, b: SpeedBounds): Number {
    if isGpm then b.minFlow else b.minRpm
  }

  function High(isGpm: bool, b: SpeedBounds): Number {
    if isGpm then b.maxFlow else b.maxRpm
  }

  /** The bounds in force leave a positive range (the source divides by it). */
  predicate RangeOk(isGpm: bool, b: SpeedBounds) {
    Low(isGpm, b).Finite? && High(isGpm, b).Finite? ==> Low(isGpm, b).r < High(isGpm, b).r
  }

  /** Where a speed sits in the range, in percent, before rounding. */
  function LevelOf(speed: real, lo: real, hi: real): real
    requires lo < hi
  {
    (speed - lo) / (hi - lo) * 100.0
  }

  /** The speed for a power level, in the units of the range, before rounding. */
  function SpeedOf(level: real, lo: real, hi: real): real {
    lo + level / 100.0 * (hi - lo)
  }

  /**
   * `convertSpeedToPowerLevel`: 0 for a falsy speed; otherwise the speed's
   * position in the range in percent, rounded to the nearest integer, or NaN
   * when the speed or a bound is not a number.
   */
  function SpeedToPowerLevel(speed: Option<Value>, isGpm: bool, b: SpeedBounds): (p: Number)
    requires RangeOk(isGpm, b)
    ensures !Truthy(speed) ==> p == Finite(0.0)
    ensures Truthy(speed) && (ToNumber(speed).NaN? || Low(isGpm, b).NaN? || High(isGpm, b).NaN?) ==> p == NaN
    ensures Truthy(speed) && ToNumber(speed).Finite? && Low(isGpm, b).Finite? && High(isGpm, b).Finite? ==>
      var exact := LevelOf(ToNumber(speed).r, Low(isGpm, b).r, High(isGpm, b).r);
      p.Finite? && IsIntegral(p.r) && exact - 0.5 < p.r <= exact + 0.5
  {
    if !Truthy(speed) then Finite(0.0)
    else
      var lo, hi, s := Low(isGpm, b), High(isGpm, b), ToNumber(speed);
      if lo.NaN? || hi.NaN? || s.NaN? then NaN
      else Finite(Round(LevelOf(s.r, lo.r, hi.r)) as real)
  }

  /**
   * `convertPowerLevelToSpeed`: the speed at that percentage of the range,
   * rounded to a whole unit for GPM and to a multiple of 50 for RPM; NaN
   * when a bound is not a number.
   */
  function PowerLevelToSpeed(level: real, isGpm: bool, b: SpeedBounds): (v: Number)
    ensures Low(isGpm, b).NaN? || High(isGpm, b).NaN? ==> v == NaN
    ensures Low(isGpm, b).Finite? && High(isGpm, b).Finite? && isGpm ==>
      var exact := SpeedOf(level, Low(isGpm, b).r, High(isGpm, b).r);
      v.Finite? && IsIntegral(v.r) && exact - 0.5 < v.r <= exact + 0.5
    ensures Low(isGpm, b).Finite? && High(isGpm, b).Finite? && !isGpm ==>
      var exact := SpeedOf(level, Low(isGpm, b).r, High(isGpm, b).r);
      v.Finite? && IsIntegral(v.r / 50.0) && exact - 25.0 < v.r <= exact + 25.0
  {
    var lo, hi := Low(isGpm, b), High(isGpm, b);
    if lo.NaN? || hi.NaN? then NaN
    else
      var value := SpeedOf(level, lo.r, hi.r);
      if isGpm then Finite(Round(value) as real) else Finite(RoundToFifty(value))
  }

  /** `Math.round(x / 50) * 50`: the nearest multiple of 50. */
  function RoundToFifty(x: real): (v: real)
    ensures x - 25.0 < v <= x + 25.0
    ensures IsIntegral(v / 50.0)
  {
    var n := Round(x / 50.0);
    assert n as real * 50.0 / 50.0 == n as real;
    (n * 50) as real
  }

  lemma RoundMonotone(x: real, y: real)
    requires x <= y
    ensures Round(x) <= Round(y)
  {
  }

  /** A higher power level never asks for a lower speed. */
  lemma PowerLevelToSpeedMonotone(p: real, q: real, isGpm: bool, b: SpeedBounds)
    requires p <= q
    requires Low(isGpm, b).Finite? && High(isGpm, b).Finite? && Low(isGpm, b).r < High(isGpm, b).r
    ensures PowerLevelToSpeed(p, isGpm, b).r <= PowerLevelToSpeed(q, isGpm, b).r
  {
    var lo, hi := Low(isGpm, b).r, High(isGpm, b).r;
    assert SpeedOf(p, lo, hi) <= SpeedOf(q, lo, hi) by {
      assert (q - p) / 100.0 * (hi - lo) >= 0.0;
    }
    if isGpm {
      RoundMonotone(SpeedOf(p, lo, hi), SpeedOf(q, lo, hi));
    } else {
      RoundMonotone(SpeedOf(p, lo, hi) / 50.0, SpeedOf(q, lo, hi) / 50.0);
      assert PowerLevelToSpeed(p, isGpm, b).r == RoundToFifty(SpeedOf(p, lo, hi));
    }
  }

  lemma RoundOfNearInteger(n: int, e: real)
    requires -0.5 < e < 0.5
    ensures Round(n as real + e) == n
  {
  }

  /**
   * For GPM a whole power level survives the round trip to a speed and back
   * when the range is wider than 100 units and starts at or above zero.
   */
  lemma GpmRoundTrip(p: int, b: SpeedBounds)
    requires 0 <= p
    requires b.minFlow.Finite? && b.maxFlow.Finite? && 0.0 <= b.minFlow.r && b.minFlow.r + 100.0 < b.maxFlow.r
    ensures SpeedToPowerLevel(Some(Num(PowerLevelToSpeed(p as real, true, b))), true, b) == Finite(p as real)
  {
    var lo, hi := b.minFlow.r, b.maxFlow.r;
    var range := hi - lo;
    var exact := SpeedOf(p as real, lo, hi);
    var v := PowerLevelToSpeed(p as real, true, b).r;
    var d := v - exact;
    assert -0.5 < d <= 0.5;
    if v == 0.0 {
      // exact = lo + p * range / 100 < 0.5 forces p == 0.
      assert (p as real) * range < 50.0;
      assert p < 1;
    } else {
      var level := LevelOf(v, lo, hi);
      assert level == p as real + d * 100.0 / range by {
        assert v - lo == (p as real) / 100.0 * range + d;
        calc {
          level;
          (v - lo) / range * 100.0;
          ((p as real) / 100.0 * range + d) / range * 100.0;
          (p as real) + d * 100.0 / range;
        }
      }
      var e := d * 100.0 / range;
      assert -0.5 < e < 0.5 by {
        assert 100.0 / range < 1.0;
        assert d * 100.0 / range == d * (100.0 / range);
      }
      RoundOfNearInteger(p, e);
    }
  }

  /** Worked example: a 0-100 GPM pump at 50% runs at 50 GPM, reported back as 50%. */
  lemma GpmExample()
    ensures PowerLevelToSpeed(50.0, true, SpeedBounds(NaN, NaN, Finite(0.0), Finite(100.0))) == Finite(50.0)
    ensures SpeedToPowerLevel(Some(Num(Finite(50.0))), true, SpeedBounds(NaN, NaN, Finite(0.0), Finite(100.0))) == Finite(50.0)
  {
  }

  /** Worked example: a 1000-3450 RPM pump at 50% is asked for 2250 RPM, which reads back as 51%. */
  lemma RpmExample()
    ensures PowerLevelToSpeed(50.0, false, SpeedBounds(Finite(1000.0), Finite(3450.0), NaN, NaN)) == Finite(2250.0)
    ensures SpeedToPowerLevel(Some(Num(Finite(2250.0))), false, SpeedBounds(Finite(1000.0), Finite(3450.0), NaN, NaN)) == Finite(51.0)
  {
    assert Round(2225.0 / 50.0) == 45;
    assert LevelOf(2250.0, 1000.0, 3450.0) == 1250.0 / 2450.0 * 100.0;
    assert Round(1250.0 / 2450.0 * 100.0) == 51;
  }
}
