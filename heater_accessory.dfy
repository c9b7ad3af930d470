/**
 * A heater accessory: a thermostat for one heater on one body. Its
 * temperatures are HomeKit's Celsius, converted at construction from the
 * controller's Fahrenheit unless the configured unit is Celsius; its mode
 * and target temperature are sent to the body as SetParamList requests.
 */
module HeaterAccessories {
  import opened Wrappers
  import opened Numbers
  import opened Json
  import opened Protocol
  import opened Conversions
  import opened Topology
  import opened Commands
  import opened Registry
  import Platform

  /** The platform configuration the accessory reads. */
  datatype Config = Config(temperatureUnits: Option<Value>, minimumTemperature: Option<Value>, maximumTemperature: Option<Value>)

  /** HomeKit's target heating and cooling states. */
  datatype TargetHeatingCoolingState = Off | Heat | Cool | Auto

  /** Any configured unit other than "C", an unset one included, is Fahrenheit. */
  predicate IsFahrenheit(config: Config) {
    config.temperatureUnits != Some(Str(CELSIUS))
  }

  /** `fahrenheitToCelsius` on a value: JavaScript subtraction converts it to a number first. */
  function ToCelsius(v: Option<Value>): Option<Value> {
    Some(Num(FahrenheitToCelsiusNumber(ToNumber(v))))
  }

  /** The values the constructor settles on. */
  datatype Readings = Readings(
    minValue: Option<Value>,
    maxValue: Option<Value>,
    lowTemperature: Option<Value>,
    highTemperature: Option<Value>,
    temperature: Option<Value>)

  /**
   * The constructor's conversion: in Fahrenheit the configured limits, the
   * truthy low and high targets and the truthy current temperature are
   * converted to Celsius; in Celsius they are kept. A falsy current
   * temperature is dropped.
   */
  function InitialReadings(body: Circuit, config: Config): Readings {
    var f := IsFahrenheit(config);
    Readings(
      if f then ToCelsius(config.minimumTemperature) else config.minimumTemperature,
      if f then ToCelsius(config.maximumTemperature) else config.maximumTemperature,
      if f && Truthy(body.lowTemperature) then ToCelsius(body.lowTemperature) else body.lowTemperature,
      if f && Truthy(body.highTemperature) then ToCelsius(body.highTemperature) else body.highTemperature,
      if !Truthy(body.temperature) then None else if f then ToCelsius(body.temperature) else body.temperature)
  }

  /** `getCurrentTemperature`: the temperature, or -1 when it is falsy. */
  function CurrentTemperature(r: Readings): Value {
    if Truthy(r.temperature) then r.temperature.value else Num(Finite(-1.0))
  }

  /** `getTargetTemperature`: the low target, or the minimum when it is falsy. */
  function TargetTemperature(r: Readings): Option<Value> {
    if Truthy(r.lowTemperature) then r.lowTemperature else r.minValue
  }

  /** In Celsius nothing is converted. */
  lemma CelsiusKeepsValues(body: Circuit, config: Config)
    requires !IsFahrenheit(config)
    ensures var r := InitialReadings(body, config);
      r.minValue == config.minimumTemperature && r.maxValue == config.maximumTemperature &&
      r.lowTemperature == body.lowTemperature && r.highTemperature == body.highTemperature &&
      TargetTemperature(r) == (if Truthy(body.lowTemperature) then body.lowTemperature else config.minimumTemperature)
  {
  }

  /**
   * The current temperature HomeKit reads: -1 for a falsy body temperature;
   * in Celsius the body's temperature itself; in Fahrenheit its Celsius
   * value, unless that is 0 (exactly 32 °F), which is falsy and reads as -1
   * too.
   */
  lemma CurrentTemperatureReading(body: Circuit, config: Config)
    ensures var t := CurrentTemperature(InitialReadings(body, config));
      (!Truthy(body.temperature) ==> t == Num(Finite(-1.0))) &&
      (Truthy(body.temperature) && !IsFahrenheit(config) ==> t == body.temperature.value) &&
      (Truthy(body.temperature) && IsFahrenheit(config) && ToNumber(body.temperature).Finite? ==>
        var f := ToNumber(body.temperature).r;
        t == if f == 32.0 then Num(Finite(-1.0)) else Num(Finite(FahrenheitToCelsius(f))))
  {
  }

  /** `getMode`: HEAT exactly when the body's heater is this heater. */
  function Mode(body: Circuit, heater: Heater): (m: TargetHeatingCoolingState)
    ensures m == Heat <==> body.heaterId == Some(Str(heater.id))
    ensures m == Off <==> body.heaterId != Some(Str(heater.id))
  {
    if body.heaterId == Some(Str(heater.id)) then Heat else Off
  }

  /**
   * The requests of `setMode`: OFF clears the body's heater with the
   * no-heater id; any other mode turns the body on and then selects this
   * heater, both addressed to the body.
   */
  function ModeRequests(body: Circuit, heater: Heater, mode: TargetHeatingCoolingState): (rs: seq<Request>)
    ensures mode == Off ==> rs == [SetParamList(body.id, HEATER_KEY, Text(NO_HEATER_ID))]
    ensures mode != Off ==> rs == [SetParamList(body.id, STATUS_KEY, Text(STATUS_ON)), SetParamList(body.id, HEATER_KEY, Text(heater.id))]
    ensures forall i :: 0 <= i < |rs| ==> rs[i].SetParamList? && rs[i].objnam == body.id
  {
    var heaterId := if mode == Off then NO_HEATER_ID else heater.id;
    var on := mode != Off;
    (if on then [SetParamList(body.id, STATUS_KEY, Text(STATUS_ON))] else []) + [SetParamList(body.id, HEATER_KEY, Text(heaterId))]
  }

  /** The LOTMP value `setTargetTemperature` sends: in Fahrenheit rounded to a whole degree, in Celsius as given. */
  function TargetValue(fahrenheit: bool, celsius: real): (n: Number)
    ensures n.Finite?
    ensures fahrenheit ==> IsIntegral(n.r) && CelsiusToFahrenheit(celsius) - 0.5 < n.r <= CelsiusToFahrenheit(celsius) + 0.5
    ensures !fahrenheit ==> n.r == celsius
  {
    if fahrenheit then Finite(Round(CelsiusToFahrenheit(celsius)) as real) else Finite(celsius)
  }

  /**
   * `setTargetTemperature` round trip: when the controller reports back
   * the LOTMP text that was sent and the heater accessory is rebuilt from
   * the updated body, its target temperature is the one asked for, within
   * 5/18 °C (half a degree Fahrenheit) in Fahrenheit and exactly in
   * Celsius. In Fahrenheit the target must not round to 32 °F, whose
   * Celsius value 0 is falsy and reads as the minimum instead.
   */
  lemma TargetTemperatureRoundTrip(body: Circuit, config: Config, celsius: real)
    requires IsFahrenheit(config) ==> Round(CelsiusToFahrenheit(celsius)) != 32
    requires !IsFahrenheit(config) ==> IsIntegral(celsius)
    ensures var sent := TargetValue(IsFahrenheit(config), celsius);
      NumberText(sent).Some? &&
      var echoed := UpdatedBody(body, Obj(map[LOW_TEMP_KEY := Str(NumberText(sent).value)]));
      var t := ToNumber(TargetTemperature(InitialReadings(echoed, config)));
      t.Finite? &&
      (IsFahrenheit(config) ==> celsius - 5.0 / 18.0 < t.r <= celsius + 5.0 / 18.0) &&
      (!IsFahrenheit(config) ==> t.r == celsius)
  {
    var f := IsFahrenheit(config);
    var sent := TargetValue(f, celsius);
    SentText(sent);
    ReadBack(body, config, NumberText(sent).value, sent);
    if f {
      FahrenheitEcho(celsius, sent.r);
    }
  }

  /** The target read back once the body has been updated with a non-empty LOTMP text. */
  lemma ReadBack(body: Circuit, config: Config, text: string, sent: Number)
    requires text != "" && StringToNumber(text) == sent && sent.Finite?
    requires IsFahrenheit(config) ==> sent.r != 32.0
    ensures ToNumber(TargetTemperature(InitialReadings(UpdatedBody(body, Obj(map[LOW_TEMP_KEY := Str(text)])), config))) ==
      if IsFahrenheit(config) then Finite(FahrenheitToCelsius(sent.r)) else sent
  {
    EchoedLowTemperature(body, text);
  }

  /** A whole number is sent as non-empty text that reads back as the number. */
  lemma SentText(sent: Number)
    requires sent.Finite? && IsIntegral(sent.r)
    ensures NumberText(sent).Some? && NumberText(sent).value != ""
    ensures StringToNumber(NumberText(sent).value) == sent
  {
    NumberTextRoundTrip(sent);
    NatTextDigits(if sent.r.Floor < 0 then -sent.r.Floor else sent.r.Floor);
  }

  /** The echoed LOTMP text becomes the body's low target. */
  lemma EchoedLowTemperature(body: Circuit, text: string)
    requires text != ""
    ensures UpdatedBody(body, Obj(map[LOW_TEMP_KEY := Str(text)])).lowTemperature == Some(Str(text))
  {
  }

  /** A whole Fahrenheit degree within half a degree of the target is, in Celsius, non-zero unless 32 and within 5/18 of it. */
  lemma FahrenheitEcho(celsius: real, n: real)
    requires n != 32.0
    requires CelsiusToFahrenheit(celsius) - 0.5 < n <= CelsiusToFahrenheit(celsius) + 0.5
    ensures FahrenheitToCelsius(n) != 0.0
    ensures celsius - 5.0 / 18.0 < FahrenheitToCelsius(n) <= celsius + 5.0 / 18.0
  {
    assert FahrenheitToCelsius(n) - celsius == (n - CelsiusToFahrenheit(celsius)) / 1.8;
  }

  /** A heater accessory: the heater and body from its context, and the readings its constructor settles on. */
  class HeaterAccessory {
    const platform: Platform.Platform
    const heater: Heater
    const body: Circuit
    const isFahrenheit: bool
    var minValue: Option<Value>
    var maxValue: Option<Value>
    var lowTemperature: Option<Value>
    var highTemperature: Option<Value>
    var temperature: Option<Value>

    function Current(): Readings
      reads this
    {
      Readings(minValue, maxValue, lowTemperature, highTemperature, temperature)
    }

    /** The constructor: the unit conversions, assignment by assignment. */
    constructor(platform: Platform.Platform, context: Context, config: Config)
      requires context.heater.Some? && context.body.Some?
      ensures this.platform == platform && heater == context.heater.value && body == context.body.value
      ensures isFahrenheit == IsFahrenheit(config)
      ensures Current() == InitialReadings(context.body.value, config)
    {
      var b := context.body.value;
      var f := config.temperatureUnits != Some(Str(CELSIUS));
      this.platform := platform;
      heater := context.heater.value;
      body := b;
      isFahrenheit := f;
      minValue := config.minimumTemperature;
      maxValue := config.maximumTemperature;
      lowTemperature := b.lowTemperature;
      highTemperature := b.highTemperature;
      new;
      if f {
        minValue := ToCelsius(minValue);
        maxValue := ToCelsius(maxValue);
        if Truthy(lowTemperature) {
          lowTemperature := ToCelsius(lowTemperature);
        }
        if Truthy(highTemperature) {
          highTemperature := ToCelsius(highTemperature);
        }
      }
      if Truthy(b.temperature) {
        temperature := if f && Truthy(b.temperature) then ToCelsius(b.temperature) else b.temperature;
      } else {
        temperature := None;
      }
    }

    /** `getMode`. */
    function GetMode(): TargetHeatingCoolingState {
      Mode(body, heater)
    }

    /** `setMode`: the status request when the mode is not OFF, then the heater request. */
    method SetMode(mode: TargetHeatingCoolingState)
      modifies platform.conn
      ensures platform.conn.sent == old(platform.conn.sent) + ModeRequests(body, heater, mode)
    {
      var heaterId := heater.id;
      var on := true;
      if mode == Off {
        heaterId := NO_HEATER_ID;
        on := false;
      }
      if on {
        platform.SendCommand(SetParamList(body.id, STATUS_KEY, Text(STATUS_ON)));
      }
      platform.SendCommand(SetParamList(body.id, HEATER_KEY, Text(heaterId)));
    }

    /** `setTargetTemperature`. */
    method SetTargetTemperature(celsius: real)
      modifies platform.conn
      ensures platform.Snapshot() == Send(old(platform.Snapshot()), SetParamList(body.id, LOW_TEMP_KEY, Numeric(TargetValue(isFahrenheit, celsius))))
    {
      var converted := if isFahrenheit then Finite(Round(CelsiusToFahrenheit(celsius)) as real) else Finite(celsius);
      platform.SendCommand(SetParamList(body.id, LOW_TEMP_KEY, Numeric(converted)));
    }

    /** `getCurrentTemperature`. */
    function GetCurrentTemperature(): Value
      reads this
    {
      CurrentTemperature(Current())
    }

    /** `getTargetTemperature`. */
    function GetTargetTemperature(): Option<Value>
      reads this
    {
      TargetTemperature(Current())
    }
  }
}
