/**
 * A pump accessory: a fan whose rotation speed is the pump's speed as a
 * percentage of its range. Setting the speed sends one SetParamList
 * request to the pump.
 */
module PumpAccessories {
  import opened Wrappers
  import opened Numbers
  import opened Json
  import opened Protocol
  import opened Conversions
  import opened Topology
  import opened Commands
  import opened Registry
  import Platform

  /** The pump's speed type is GPM. */
  predicate IsGpm(pump: Pump, k: Keys) {
    pump.speedType == Some(k.gpm)
  }

  /**
   * `convertSpeedToPowerLevel`: 0 for a falsy speed (0 or NaN); otherwise
   * the speed's position between the flow bounds (GPM) or the RPM bounds
   * (anything else), in whole percent.
   */
  function PumpPowerLevel(pump: Pump, k: Keys): (p: Number)
    requires RangeOk(IsGpm(pump, k), pump.bounds)
    ensures !(pump.speed.Finite? && pump.speed.r != 0.0) ==> p == Finite(0.0)
    ensures pump.speed.Finite? && pump.speed.r != 0.0 ==>
      var lo := if IsGpm(pump, k) then pump.bounds.minFlow else pump.bounds.minRpm;
      var hi := if IsGpm(pump, k) then pump.bounds.maxFlow else pump.bounds.maxRpm;
      (lo.Finite? && hi.Finite? ==>
        p.Finite? && IsIntegral(p.r) && LevelOf(pump.speed.r, lo.r, hi.r) - 0.5 < p.r <= LevelOf(pump.speed.r, lo.r, hi.r) + 0.5) &&
      (lo.NaN? || hi.NaN? ==> p == NaN)
  {
    SpeedToPowerLevel(Some(Num(pump.speed)), IsGpm(pump, k), pump.bounds)
  }

  /**
   * `convertPowerLevelToSpeed`: the speed at that percentage of the range,
   * a whole number of GPM or a multiple of 50 RPM.
   */
  function PumpSpeed(pump: Pump, level: real, k: Keys): (v: Number)
    ensures var lo := if IsGpm(pump, k) then pump.bounds.minFlow else pump.bounds.minRpm;
      var hi := if IsGpm(pump, k) then pump.bounds.maxFlow else pump.bounds.maxRpm;
      (lo.Finite? && hi.Finite? && IsGpm(pump, k) ==>
        v.Finite? && IsIntegral(v.r) && SpeedOf(level, lo.r, hi.r) - 0.5 < v.r <= SpeedOf(level, lo.r, hi.r) + 0.5) &&
      (lo.Finite? && hi.Finite? && !IsGpm(pump, k) ==>
        v.Finite? && IsIntegral(v.r / 50.0) && SpeedOf(level, lo.r, hi.r) - 25.0 < v.r <= SpeedOf(level, lo.r, hi.r) + 25.0) &&
      (lo.NaN? || hi.NaN? ==> v == NaN)
  {
    PowerLevelToSpeed(level, IsGpm(pump, k), pump.bounds)
  }

  /** The request of `setSpeed`: the converted speed, set on the pump itself. */
  function SpeedRequest(pump: Pump, level: real, k: Keys): Request {
    SetParamList(pump.id, k.speedKey, Numeric(PumpSpeed(pump, level, k)))
  }

  /**
   * For a GPM pump whose range starts at or above zero and is wider than
   * 100 units, the speed asked for a whole power level reads back as that
   * level.
   */
  lemma GpmLevelReadsBack(pump: Pump, level: nat, k: Keys)
    requires IsGpm(pump, k)
    requires pump.bounds.minFlow.Finite? && pump.bounds.maxFlow.Finite?
    requires 0.0 <= pump.bounds.minFlow.r && pump.bounds.minFlow.r + 100.0 < pump.bounds.maxFlow.r
    ensures var asked := SpeedRequest(pump, level as real, k).value.n;
      PumpPowerLevel(pump.(speed := asked), k) == Finite(level as real)
  {
    GpmRoundTrip(level, pump.bounds);
  }

  /** A pump accessory: the platform that sends its requests and the pump record from its context. */
  class PumpAccessory {
    const platform: Platform.Platform
    const pump: Pump

    constructor(platform: Platform.Platform, pump: Pump)
      ensures this.platform == platform && this.pump == pump
    {
      this.platform := platform;
      this.pump := pump;
    }

    /** `setSpeed`: exactly one request, and no status request. */
    method SetSpeed(level: real)
      modifies platform.conn
      ensures platform.Snapshot() == Send(old(platform.Snapshot()), SpeedRequest(pump, level, platform.settings.keys))
    {
      var speed := PumpSpeed(pump, level, platform.settings.keys);
      platform.SendCommand(SetParamList(pump.id, platform.settings.keys.speedKey, Numeric(speed)));
    }

    /** `getSpeed`. */
    function PowerLevel(): Number
      requires RangeOk(IsGpm(pump, platform.settings.keys), pump.bounds)
    {
      PumpPowerLevel(pump, platform.settings.keys)
    }
  }
}
