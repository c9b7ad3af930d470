/**
 * A circuit accessory: a switch, an IntelliBrite light, or a fan for a
 * circuit a pump drives. Its handlers send SetParamList requests to the
 * controller and keep the selected colour and saturation in the
 * accessory's context, which is the entry of the platform's accessory map
 * under the accessory's UUID.
 */
module CircuitAccessories {
  import opened Wrappers
  import opened Numbers
  import opened Json
  import opened Protocol
  import opened Conversions
  import opened Colors
  import opened Topology
  import opened Commands
  import opened Registry
  import Routing
  import Platform

  /** `getCircuitStatus`: true exactly when the context's circuit reports STATUS "ON". */
  function CircuitStatus(context: Context): (on: bool)
    ensures on <==> context.circuit.Some? && context.circuit.value.status == Some(Str(STATUS_ON))
  {
    if context.circuit.Some? && Truthy(context.circuit.value.status) then context.circuit.value.status.value == Str(STATUS_ON)
    else false
  }

  function StatusText(on: bool): string {
    if on then STATUS_ON else STATUS_OFF
  }

  /** The request of `setOn`. */
  function SetOnRequest(circuit: Circuit, on: bool): Request {
    SetParamList(circuit.id, STATUS_KEY, Text(StatusText(on)))
  }

  /**
   * `setOn` round trip: once the controller reports back the status the
   * request set, the circuit's accessory reads as on exactly when `setOn`
   * was asked to turn it on.
   */
  lemma SetOnEchoed(st: State, objnam: string, on: bool, k: Keys)
    requires objnam != "" && objnam !in st.pumpIdToCircuitMap && Routing.RoutesToCircuit(st, objnam)
    ensures var r := Routing.HandleUpdate(st, Routing.Notification(objnam, Obj(map[STATUS_KEY := Str(StatusText(on))])), k);
      Uuid(objnam) in r.st.accessoryMap && CircuitStatus(r.st.accessoryMap[Uuid(objnam)]) == on
  {
    var params := Obj(map[STATUS_KEY := Str(StatusText(on))]);
    Routing.NotificationRoutes(st, objnam, params, k);
    var r := Routing.RouteChange(st, objnam, params, k);
    var c := st.accessoryMap[Uuid(objnam)].circuit.value;
    assert Get(params, STATUS_KEY) == Some(Str(StatusText(on)));
    if c.objectType == BODY_TYPE {
      Routing.BodyUpdateCascades(st, objnam, params, k);
    } else {
      Routing.CircuitUpdate(st, objnam, params, k);
    }
    assert r.st.accessoryMap[Uuid(objnam)].circuit.value.status == Some(Str(StatusText(on)));
  }

  /** The pump circuit's speed type is GPM. */
  predicate IsGpm(pc: PumpCircuit, k: Keys) {
    pc.speedType == Some(Str(k.gpm))
  }

  /**
   * `convertSpeedToPowerLevel`: 0 without a pump circuit or with a falsy
   * speed; otherwise the speed's position between the flow bounds (GPM) or
   * the RPM bounds (anything else), in whole percent.
   */
  function CircuitPowerLevel(pumpCircuit: Option<PumpCircuit>, k: Keys): (p: Number)
    requires pumpCircuit.Some? ==> RangeOk(IsGpm(pumpCircuit.value, k), pumpCircuit.value.pump)
    ensures pumpCircuit.None? || !Truthy(pumpCircuit.value.speed) ==> p == Finite(0.0)
    ensures pumpCircuit.Some? && Truthy(pumpCircuit.value.speed) ==>
      var pc := pumpCircuit.value;
      var lo := if IsGpm(pc, k) then pc.pump.minFlow else pc.pump.minRpm;
      var hi := if IsGpm(pc, k) then pc.pump.maxFlow else pc.pump.maxRpm;
      var s := ToNumber(pc.speed);
      (s.Finite? && lo.Finite? && hi.Finite? ==>
        p.Finite? && IsIntegral(p.r) && LevelOf(s.r, lo.r, hi.r) - 0.5 < p.r <= LevelOf(s.r, lo.r, hi.r) + 0.5) &&
      (s.NaN? || lo.NaN? || hi.NaN? ==> p == NaN)
  {
    if pumpCircuit.None? then Finite(0.0)
    else SpeedToPowerLevel(pumpCircuit.value.speed, IsGpm(pumpCircuit.value, k), pumpCircuit.value.pump)
  }

  /**
   * `convertPowerLevelToSpeed`: 0 without a pump circuit; otherwise the
   * speed at that percentage of the range, a whole number of GPM or a
   * multiple of 50 RPM.
   */
  function CircuitSpeed(pumpCircuit: Option<PumpCircuit>, level: real, k: Keys): (v: Number)
    ensures pumpCircuit.None? ==> v == Finite(0.0)
    ensures pumpCircuit.Some? ==>
      var pc := pumpCircuit.value;
      var lo := if IsGpm(pc, k) then pc.pump.minFlow else pc.pump.minRpm;
      var hi := if IsGpm(pc, k) then pc.pump.maxFlow else pc.pump.maxRpm;
      (lo.Finite? && hi.Finite? && IsGpm(pc, k) ==>
        v.Finite? && IsIntegral(v.r) && SpeedOf(level, lo.r, hi.r) - 0.5 < v.r <= SpeedOf(level, lo.r, hi.r) + 0.5) &&
      (lo.Finite? && hi.Finite? && !IsGpm(pc, k) ==>
        v.Finite? && IsIntegral(v.r / 50.0) && SpeedOf(level, lo.r, hi.r) - 25.0 < v.r <= SpeedOf(level, lo.r, hi.r) + 25.0) &&
      (lo.NaN? || hi.NaN? ==> v == NaN)
  {
    if pumpCircuit.None? then Finite(0.0)
    else PowerLevelToSpeed(level, IsGpm(pumpCircuit.value, k), pumpCircuit.value.pump)
  }

  /**
   * The requests of `setSpeed`: nothing without a pump circuit; level 0
   * turns the circuit off and nothing more; any other level first turns
   * the circuit on when it is not on, then sets the converted speed on the
   * pump circuit, not on the circuit.
   */
  function SpeedRequests(context: Context, level: real, k: Keys): (rs: seq<Request>)
    requires context.circuit.Some?
    ensures context.pumpCircuit.None? ==> rs == []
    ensures context.pumpCircuit.Some? && level == 0.0 ==> rs == [SetOnRequest(context.circuit.value, false)]
    ensures context.pumpCircuit.Some? && level != 0.0 ==>
      |rs| == (if CircuitStatus(context) then 1 else 2) &&
      (!CircuitStatus(context) ==> rs[0] == SetOnRequest(context.circuit.value, true)) &&
      rs[|rs| - 1] == SetParamList(context.pumpCircuit.value.id, k.speedKey, Numeric(CircuitSpeed(context.pumpCircuit, level, k)))
  {
    if context.pumpCircuit.None? then []
    else if level == 0.0 then [SetOnRequest(context.circuit.value, false)]
    else
      (if CircuitStatus(context) then [] else [SetOnRequest(context.circuit.value, true)]) +
      [SetParamList(context.pumpCircuit.value.id, k.speedKey, Numeric(CircuitSpeed(context.pumpCircuit, level, k)))]
  }

  /**
   * The colour `setColorHue` selects. An unset saturation is `undefined`,
   * which is not greater than 50, so it selects White.
   */
  function HueColor(hue: real, saturation: Option<real>): (c: Color)
    ensures c == White <==> saturation.None? || saturation.value <= 50.0
    ensures c != White ==> c == IntelliBriteColor(hue, saturation.value)
  {
    if saturation.None? then White else IntelliBriteColor(hue, saturation.value)
  }

  /** The accessory holds a circuit: the constructor reads its type, and the handlers its id and name. */
  predicate HasCircuit(st: State, uuid: Uuid) {
    uuid in st.accessoryMap && st.accessoryMap[uuid].circuit.Some?
  }

  /**
   * `setColorHue`: the selected colour goes into the context, its code is
   * sent as ACT to the circuit, and the context's saturation is reset to
   * the colour's own.
   */
  function ColorHue(st: State, uuid: Uuid, hue: real): (r: State)
    requires HasCircuit(st, uuid)
    ensures var context := st.accessoryMap[uuid];
      var c := HueColor(hue, context.saturation);
      r == st.(accessoryMap := st.accessoryMap[uuid := context.(color := Some(c), saturation := Some(c.Saturation()))],
               sent := st.sent + [SetParamList(context.circuit.value.id, ACT_KEY, ColorCode(c))])
  {
    var context := st.accessoryMap[uuid];
    var color := HueColor(hue, context.saturation);
    var colored := st.(accessoryMap := st.accessoryMap[uuid := context.(color := Some(color))]);
    var sent := Send(colored, SetParamList(context.circuit.value.id, ACT_KEY, ColorCode(color)));
    sent.(accessoryMap := sent.accessoryMap[uuid := sent.accessoryMap[uuid].(saturation := Some(color.Saturation()))])
  }

  /** `setColorSaturation`: the value is only remembered in the context. */
  function ColorSaturation(st: State, uuid: Uuid, saturation: real): (r: State)
    requires uuid in st.accessoryMap
    ensures r.accessoryMap.Keys == st.accessoryMap.Keys
    ensures r.accessoryMap[uuid] == st.accessoryMap[uuid].(saturation := Some(saturation))
    ensures r == st.(accessoryMap := r.accessoryMap)
    ensures forall u :: u in st.accessoryMap && u != uuid ==> r.accessoryMap[u] == st.accessoryMap[u]
  {
    st.(accessoryMap := st.accessoryMap[uuid := st.accessoryMap[uuid].(saturation := Some(saturation))])
  }

  /** HomeKit sets the saturation, then the hue: the colour is the one the two select together. */
  lemma SaturationThenHue(st: State, uuid: Uuid, saturation: real, hue: real)
    requires HasCircuit(st, uuid)
    ensures var r := ColorHue(ColorSaturation(st, uuid, saturation), uuid, hue);
      r.accessoryMap[uuid].color == Some(IntelliBriteColor(hue, saturation))
  {
  }

  /**
   * Setting the same hue again selects the same colour and leaves the
   * context as it was; the same ACT request is sent a second time.
   */
  lemma ColorHueIdempotent(st: State, uuid: Uuid, hue: real)
    requires HasCircuit(st, uuid)
    ensures var once := ColorHue(st, uuid, hue);
      var twice := ColorHue(once, uuid, hue);
      twice.accessoryMap == once.accessoryMap && |twice.sent| == |once.sent| + 1 && twice.sent[|once.sent|] == once.sent[|once.sent| - 1]
  {
    var c := HueColor(hue, st.accessoryMap[uuid].saturation);
    assert HueColor(hue, Some(c.Saturation())) == c;
  }

  /** A circuit accessory: the platform it belongs to and the UUID of its context. */
  class CircuitAccessory {
    const platform: Platform.Platform
    const uuid: Uuid

    predicate Valid()
      reads platform
    {
      uuid in platform.accessoryMap && platform.accessoryMap[uuid].circuit.Some?
    }

    /** `accessory.context`. */
    function Context(): Context
      reads platform
      requires Valid()
    {
      platform.accessoryMap[uuid]
    }

    constructor(platform: Platform.Platform, uuid: Uuid)
      requires uuid in platform.accessoryMap && platform.accessoryMap[uuid].circuit.Some?
      ensures this.platform == platform && this.uuid == uuid && Valid()
    {
      this.platform := platform;
      this.uuid := uuid;
    }

    /** `setOn`: STATUS ON for true and OFF for false, to the circuit. */
    method SetOn(on: bool)
      requires Valid()
      modifies platform.conn
      ensures platform.Snapshot() == Send(old(platform.Snapshot()), SetOnRequest(Context().circuit.value, on))
    {
      platform.SendCommand(SetOnRequest(Context().circuit.value, on));
    }

    /** `getCircuitStatus`, on the context as it is now. */
    function Status(): bool
      reads platform
      requires Valid()
    {
      CircuitStatus(Context())
    }

    /** `setColorHue`; the 10 ms wait for the saturation is not modelled. */
    method SetColorHue(hue: real)
      requires Valid()
      modifies platform, platform.conn
      ensures Valid() && platform.buffer == old(platform.buffer)
      ensures platform.Snapshot() == ColorHue(old(platform.Snapshot()), uuid, hue)
    {
      var context := Context();
      var color := HueColor(hue, context.saturation);
      platform.accessoryMap := platform.accessoryMap[uuid := context.(color := Some(color))];
      platform.SendCommand(SetParamList(context.circuit.value.id, ACT_KEY, ColorCode(color)));
      platform.accessoryMap := platform.accessoryMap[uuid := platform.accessoryMap[uuid].(saturation := Some(color.Saturation()))];
    }

    /** `setColorSaturation`. */
    method SetColorSaturation(saturation: real)
      requires Valid()
      modifies platform
      ensures Valid() && platform.buffer == old(platform.buffer)
      ensures platform.Snapshot() == ColorSaturation(old(platform.Snapshot()), uuid, saturation)
    {
      platform.accessoryMap := platform.accessoryMap[uuid := Context().(saturation := Some(saturation))];
    }

    /** `setSpeed`: the requests go out in order, each with `setOn` or directly. */
    method SetSpeed(level: real)
      requires Valid()
      modifies platform.conn
      ensures platform.conn.sent == old(platform.conn.sent) + SpeedRequests(old(Context()), level, platform.settings.keys)
    {
      var context := Context();
      if context.pumpCircuit.None? {
        return;
      }
      if level == 0.0 {
        SetOn(false);
        return;
      } else if !Status() {
        SetOn(true);
      }
      var speed := CircuitSpeed(context.pumpCircuit, level, platform.settings.keys);
      platform.SendCommand(SetParamList(context.pumpCircuit.value.id, platform.settings.keys.speedKey, Numeric(speed)));
    }

    /** `convertSpeedToPowerLevel`, on the context's pump circuit. */
    function PowerLevel(): Number
      reads platform
      requires Valid()
      requires Context().pumpCircuit.Some? ==> RangeOk(IsGpm(Context().pumpCircuit.value, platform.settings.keys), Context().pumpCircuit.value.pump)
    {
      CircuitPowerLevel(Context().pumpCircuit, platform.settings.keys)
    }
  }
}
