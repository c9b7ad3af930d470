/**
 * The platform object: its fields are the state the bridge keeps, and its
 * methods follow the source's statements and loops, each proved to leave
 * the fields as the corresponding function of `Registry`, `Discovery`,
 * `Routing` or `Framing` says.
 */
module Platform {
  import opened Wrappers
  import opened Json
  import opened Protocol
  import opened Strings
  import opened Topology
  import opened Commands
  import opened Registry
  import Merge
  import Discovery
  import Routing
  import Framing

  class Platform {
    /** The text received after the last newline. */
    var buffer: string
    var discoverCommandsSent: seq<Option<string>>
    var discoveryBuffer: Option<Value>
    var pumpIdToCircuitMap: map<string, Circuit>
    var accessoryMap: map<Uuid, Context>
    var heaters: HeaterEntries
    const conn: Connection
    const settings: Framing.Settings

    /** The fields, with the requests sent on the connection, as one value. */
    function Snapshot(): State
      reads this, conn
    {
      State(discoverCommandsSent, discoveryBuffer, pumpIdToCircuitMap, accessoryMap, heaters, conn.sent)
    }

    /** The locals of the discovery walk together with the fields. */
    function At(pumpCircuits: map<string, PumpCircuit>, bodies: map<string, Circuit>, found: seq<Heater>, threw: bool): Discovery.Walk
      reads this, conn
    {
      Discovery.Walk(Snapshot(), pumpCircuits, bodies, found, threw)
    }

    /** The constructor's state: nothing sent, nothing discovered, the buffer limit `maxBufferSize || 1048576`. */
    constructor(maxBufferSize: Option<Value>, parse: string -> Option<Value>, keys: Keys)
      ensures Snapshot() == INITIAL && buffer == ""
      ensures settings == Framing.Settings(Framing.MaxBufferSize(maxBufferSize), parse, keys)
      ensures fresh(conn)
    {
      conn := new Connection();
      settings := Framing.Settings(Framing.MaxBufferSize(maxBufferSize), parse, keys);
      buffer := "";
      discoverCommandsSent := [];
      discoveryBuffer := None;
      pumpIdToCircuitMap := map[];
      accessoryMap := map[];
      heaters := [];
    }

    /** `sendCommandNoWait`. */
    method SendCommand(r: Request)
      modifies conn
      ensures Snapshot() == Send(old(Snapshot()), r)
    {
      conn.Send(r);
    }

    /** `configureAccessory`, tracking a restored heater accessory itself. */
    method ConfigureAccessory(uuid: Uuid, cached: Context)
      modifies this
      ensures Snapshot() == Registry.ConfigureAccessory(old(Snapshot()), uuid, cached)
      ensures buffer == old(buffer)
    {
      accessoryMap := accessoryMap[uuid := cached];
      if cached.heater.Some? {
        heaters := SetHeater(heaters, uuid, Accessory);
      }
    }

    // -------------------------------------------------------------------
    // Discovery

    /** `discoverDeviceType`. */
    method DiscoverDeviceType(deviceType: Option<string>)
      modifies this, conn
      ensures Snapshot() == Discovery.DiscoverDeviceType(old(Snapshot()), deviceType)
      ensures buffer == old(buffer)
    {
      discoverCommandsSent := discoverCommandsSent + [deviceType];
      SendCommand(GetQuery(deviceType));
    }

    /** `discoverDevices`. */
    method DiscoverDevices()
      modifies this, conn
      ensures Snapshot() == Discovery.DiscoverDevices(old(Snapshot()), settings.keys)
      ensures buffer == old(buffer)
    {
      DiscoverDeviceType(Discovery.CommandAt(settings.keys.discoverCommands, 0));
    }

    /** `subscribeForUpdates`. */
    method SubscribeForUpdates(objnam: string, keys: seq<string>)
      modifies conn
      ensures Snapshot() == Discovery.Subscribe(old(Snapshot()), objnam, keys)
    {
      SendCommand(RequestParamList(objnam, keys));
    }

    /** `discoverCircuit`. */
    method DiscoverCircuit(panel: Panel, owner: Option<Module>, circuit: Circuit, pumpCircuit: Option<PumpCircuit>)
      modifies this
      ensures Snapshot() == Discovery.DiscoverCircuit(old(Snapshot()), panel, owner, circuit, pumpCircuit)
      ensures buffer == old(buffer)
    {
      var uuid := Uuid(circuit.id);
      var context := if uuid in accessoryMap then accessoryMap[uuid] else EMPTY_CONTEXT;
      accessoryMap := accessoryMap[uuid := context.(circuit := Some(circuit), circuitModule := owner, panel := Some(panel), pumpCircuit := pumpCircuit)];
      if pumpCircuit.Some? {
        pumpIdToCircuitMap := pumpIdToCircuitMap[pumpCircuit.value.id := circuit];
      }
    }

    /** One body id of `discoverHeater`. */
    method DiscoverHeaterBody(heater: Heater, bodyId: string, bodies: map<string, Circuit>)
      modifies this
      ensures Snapshot() == Discovery.DiscoverHeaterBody(old(Snapshot()), heater, bodyId, bodies)
      ensures buffer == old(buffer)
    {
      if bodyId in bodies {
        var uuid := Discovery.HeaterUuid(heater.id, bodyId);
        var context := if uuid in accessoryMap then accessoryMap[uuid] else EMPTY_CONTEXT;
        accessoryMap := accessoryMap[uuid := context.(body := Some(bodies[bodyId]), heater := Some(heater))];
        heaters := SetHeater(heaters, uuid, Accessory);
      }
    }

    /** `discoverHeater`: `heater.bodyIds.forEach(...)`. */
    method DiscoverHeater(heater: Heater, bodies: map<string, Circuit>)
      modifies this
      ensures Snapshot() == Discovery.DiscoverHeater(old(Snapshot()), heater, heater.bodyIds, bodies)
      ensures buffer == old(buffer)
    {
      var ids := heater.bodyIds;
      for i := 0 to |ids|
        invariant Discovery.DiscoverHeater(old(Snapshot()), heater, ids, bodies) == Discovery.DiscoverHeater(Snapshot(), heater, ids[i..], bodies)
        invariant buffer == old(buffer)
      {
        assert ids[i..][1..] == ids[i + 1..];
        DiscoverHeaterBody(heater, ids[i], bodies);
      }
    }

    /** The heater loop at the end of `handleDiscoveryResponse`. */
    method DiscoverHeaters(found: seq<Heater>, bodies: map<string, Circuit>)
      modifies this
      ensures Snapshot() == Discovery.DiscoverHeaters(old(Snapshot()), found, bodies)
      ensures buffer == old(buffer)
    {
      for i := 0 to |found|
        invariant Discovery.DiscoverHeaters(old(Snapshot()), found, bodies) == Discovery.DiscoverHeaters(Snapshot(), found[i..], bodies)
        invariant buffer == old(buffer)
      {
        assert found[i..][1..] == found[i + 1..];
        DiscoverHeater(found[i], bodies);
      }
    }

    /** The circuits of one pump. */
    method WalkPumpCircuits(circuits: seq<PumpCircuit>, pumpCircuits: map<string, PumpCircuit>, bodies: map<string, Circuit>, found: seq<Heater>)
      returns (pcs: map<string, PumpCircuit>)
      modifies conn
      ensures At(pcs, bodies, found, false) == Discovery.WalkPumpCircuits(old(At(pumpCircuits, bodies, found, false)), circuits)
    {
      pcs := pumpCircuits;
      for i := 0 to |circuits|
        invariant Discovery.WalkPumpCircuits(old(At(pumpCircuits, bodies, found, false)), circuits) ==
          Discovery.WalkPumpCircuits(At(pcs, bodies, found, false), circuits[i..])
      {
        assert circuits[i..][1..] == circuits[i + 1..];
        var pc := circuits[i];
        pcs := pcs[pc.circuitId := pc];
        SubscribeForUpdates(pc.id, Discovery.CIRCUIT_KEYS);
      }
    }

    /** The pumps of one panel; `pump.circuits` is iterated, which throws when it is undefined. */
    method WalkPumps(pumps: seq<Pump>, pumpCircuits: map<string, PumpCircuit>, bodies: map<string, Circuit>, found: seq<Heater>)
      returns (pcs: map<string, PumpCircuit>, threw: bool)
      modifies conn
      ensures At(pcs, bodies, found, threw) == Discovery.WalkPumps(old(At(pumpCircuits, bodies, found, false)), pumps)
    {
      pcs, threw := pumpCircuits, false;
      for i := 0 to |pumps|
        invariant Discovery.WalkPumps(old(At(pumpCircuits, bodies, found, false)), pumps) ==
          Discovery.WalkPumps(At(pcs, bodies, found, false), pumps[i..])
      {
        assert pumps[i..][1..] == pumps[i + 1..];
        var pump := pumps[i];
        if pump.circuits.None? {
          threw := true;
          return;
        }
        pcs := WalkPumpCircuits(pump.circuits.value, pcs, bodies, found);
      }
    }

    /** The bodies of one module. */
    method WalkBodies(panel: Panel, owner: Module, list: seq<Circuit>, pumpCircuits: map<string, PumpCircuit>, bodies: map<string, Circuit>, found: seq<Heater>)
      returns (bs: map<string, Circuit>)
      modifies this, conn
      ensures At(pumpCircuits, bs, found, false) == Discovery.WalkBodies(old(At(pumpCircuits, bodies, found, false)), panel, owner, list)
      ensures buffer == old(buffer)
    {
      bs := bodies;
      for i := 0 to |list|
        invariant Discovery.WalkBodies(old(At(pumpCircuits, bodies, found, false)), panel, owner, list) ==
          Discovery.WalkBodies(At(pumpCircuits, bs, found, false), panel, owner, list[i..])
        invariant buffer == old(buffer)
      {
        assert list[i..][1..] == list[i + 1..];
        var body := list[i];
        DiscoverCircuit(panel, Some(owner), body, Discovery.Lookup(pumpCircuits, body.id));
        SubscribeForUpdates(body.id, Discovery.BODY_KEYS);
        bs := bs[body.id := body];
      }
    }

    /** The features of one module, or those held by the panel. */
    method WalkFeatures(panel: Panel, owner: Option<Module>, list: seq<Circuit>, pumpCircuits: map<string, PumpCircuit>, bodies: map<string, Circuit>, found: seq<Heater>)
      modifies this, conn
      ensures At(pumpCircuits, bodies, found, false) == Discovery.WalkFeatures(old(At(pumpCircuits, bodies, found, false)), panel, owner, list)
      ensures buffer == old(buffer)
    {
      for i := 0 to |list|
        invariant Discovery.WalkFeatures(old(At(pumpCircuits, bodies, found, false)), panel, owner, list) ==
          Discovery.WalkFeatures(At(pumpCircuits, bodies, found, false), panel, owner, list[i..])
        invariant buffer == old(buffer)
      {
        assert list[i..][1..] == list[i + 1..];
        var feature := list[i];
        DiscoverCircuit(panel, owner, feature, Discovery.Lookup(pumpCircuits, feature.id));
        SubscribeForUpdates(feature.id, Discovery.CIRCUIT_KEYS);
      }
    }

    /** One module: bodies, features, then `heaters.concat(module.heaters)`. */
    method WalkModule(panel: Panel, m: Module, pumpCircuits: map<string, PumpCircuit>, bodies: map<string, Circuit>, found: seq<Heater>)
      returns (bs: map<string, Circuit>, hs: seq<Heater>)
      modifies this, conn
      ensures At(pumpCircuits, bs, hs, false) == Discovery.WalkModule(old(At(pumpCircuits, bodies, found, false)), panel, m)
      ensures buffer == old(buffer)
    {
      bs := WalkBodies(panel, m, m.bodies, pumpCircuits, bodies, found);
      WalkFeatures(panel, Some(m), m.features, pumpCircuits, bs, found);
      hs := found + m.heaters;
    }

    method WalkModules(panel: Panel, modules: seq<Module>, pumpCircuits: map<string, PumpCircuit>, bodies: map<string, Circuit>, found: seq<Heater>)
      returns (bs: map<string, Circuit>, hs: seq<Heater>)
      modifies this, conn
      ensures At(pumpCircuits, bs, hs, false) == Discovery.WalkModules(old(At(pumpCircuits, bodies, found, false)), panel, modules)
      ensures buffer == old(buffer)
    {
      bs, hs := bodies, found;
      for i := 0 to |modules|
        invariant Discovery.WalkModules(old(At(pumpCircuits, bodies, found, false)), panel, modules) ==
          Discovery.WalkModules(At(pumpCircuits, bs, hs, false), panel, modules[i..])
        invariant buffer == old(buffer)
      {
        assert modules[i..][1..] == modules[i + 1..];
        bs, hs := WalkModule(panel, modules[i], pumpCircuits, bs, hs);
      }
    }

    /** One panel: pumps, modules, then the panel's own features. */
    method WalkPanel(panel: Panel, pumpCircuits: map<string, PumpCircuit>, bodies: map<string, Circuit>, found: seq<Heater>)
      returns (pcs: map<string, PumpCircuit>, bs: map<string, Circuit>, hs: seq<Heater>, threw: bool)
      modifies this, conn
      ensures At(pcs, bs, hs, threw) == Discovery.WalkPanel(old(At(pumpCircuits, bodies, found, false)), panel)
      ensures buffer == old(buffer)
    {
      bs, hs := bodies, found;
      pcs, threw := WalkPumps(panel.pumps, pumpCircuits, bodies, found);
      if threw {
        return;
      }
      bs, hs := WalkModules(panel, panel.modules, pcs, bodies, found);
      WalkFeatures(panel, None, panel.features, pcs, bs, hs);
    }

    method WalkPanels(panels: seq<Panel>)
      returns (pcs: map<string, PumpCircuit>, bs: map<string, Circuit>, hs: seq<Heater>, threw: bool)
      modifies this, conn
      ensures At(pcs, bs, hs, threw) == Discovery.WalkPanels(old(At(map[], map[], [], false)), panels)
      ensures buffer == old(buffer)
    {
      pcs, bs, hs, threw := map[], map[], [], false;
      for i := 0 to |panels|
        invariant Discovery.WalkPanels(old(At(map[], map[], [], false)), panels) ==
          Discovery.WalkPanels(At(pcs, bs, hs, false), panels[i..])
        invariant buffer == old(buffer)
      {
        assert panels[i..][1..] == panels[i + 1..];
        pcs, bs, hs, threw := WalkPanel(panels[i], pcs, bs, hs);
        if threw {
          return;
        }
      }
    }

    /** The end of `handleDiscoveryResponse`, once every query has been answered. */
    method CompleteDiscovery() returns (threw: bool)
      modifies this, conn
      ensures Run(Snapshot(), threw) == Discovery.CompleteDiscovery(old(Snapshot()), settings.keys)
      ensures buffer == old(buffer)
    {
      var panels := TransformPanels(discoveryBuffer, settings.keys);
      if panels.Thrown? {
        return true;
      }
      pumpIdToCircuitMap := map[];
      var pcs, bs, hs;
      pcs, bs, hs, threw := WalkPanels(panels.value);
      if threw {
        return;
      }
      DiscoverHeaters(hs, bs);
    }

    /** `handleDiscoveryResponse`. */
    method HandleDiscoveryResponse(answer: Option<Value>) returns (threw: bool)
      modifies this, conn
      ensures Run(Snapshot(), threw) == Discovery.HandleDiscoveryResponse(old(Snapshot()), answer, settings.keys)
      ensures buffer == old(buffer)
    {
      if discoveryBuffer.None? {
        discoveryBuffer := answer;
      } else if answer.Some? {
        var merged, mergeThrew := Merge.MergeResponse(discoveryBuffer.value, answer.value);
        if mergeThrew {
          return true;
        }
        discoveryBuffer := Some(merged);
      }
      var n := |discoverCommandsSent|;
      if n != |settings.keys.discoverCommands| {
        DiscoverDeviceType(Discovery.CommandAt(settings.keys.discoverCommands, n));
        return false;
      }
      threw := CompleteDiscovery();
    }

    // -------------------------------------------------------------------
    // Updates

    /** One accessory entry of `updateHeaterStatuses`: a heater of this body follows it. */
    method RefreshHeater(uuid: Uuid, body: Circuit)
      modifies this
      ensures Snapshot() == RefreshOne(old(Snapshot()), uuid, body)
      ensures heaters == old(heaters) && buffer == old(buffer)
    {
      if uuid in accessoryMap && Matches(accessoryMap[uuid], body) {
        accessoryMap := accessoryMap[uuid := accessoryMap[uuid].(body := Some(body))];
      }
    }

    /** `updateHeaterStatuses`: `heaters.forEach(...)` in insertion order. */
    method UpdateHeaterStatuses(body: Circuit) returns (threw: bool)
      modifies this
      ensures Run(Snapshot(), threw) == Registry.UpdateHeaterStatuses(old(Snapshot()), body)
      ensures buffer == old(buffer)
    {
      var entries := heaters;
      for i := 0 to |entries|
        invariant RefreshHeaters(old(Snapshot()), entries, body) == RefreshHeaters(Snapshot(), entries[i..], body)
        invariant heaters == entries && buffer == old(buffer)
      {
        assert entries[i..][1..] == entries[i + 1..];
        if entries[i].1.HeaterRecord? {
          return true;
        }
        RefreshHeater(entries[i].0, body);
      }
      threw := false;
    }

    /** The platform's `updatePump`. */
    method UpdatePumpAccessory(uuid: Uuid, params: Value) returns (threw: bool)
      modifies this
      ensures Run(Snapshot(), threw) == Routing.UpdatePumpAccessory(old(Snapshot()), uuid, params, settings.keys)
      ensures buffer == old(buffer)
    {
      if uuid !in accessoryMap {
        return true;
      }
      var context := accessoryMap[uuid];
      var k := settings.keys;
      if context.pumpCircuit.None? {
        return Truthy(Get(params, STATUS_KEY)) || Truthy(Get(params, k.selectKey)) || Truthy(Get(params, k.speedKey));
      }
      var pc := Topology.UpdatePumpStatus(context.pumpCircuit.value, params);
      pc := Topology.UpdatePump(pc, params, k);
      accessoryMap := accessoryMap[uuid := context.(pumpCircuit := Some(pc))];
      threw := false;
    }

    /** The platform's `updateCircuit`. */
    method UpdateCircuitAccessory(uuid: Uuid, params: Value) returns (threw: bool)
      requires uuid in accessoryMap && accessoryMap[uuid].circuit.Some?
      modifies this
      ensures Run(Snapshot(), threw) == Routing.UpdateCircuitAccessory(old(Snapshot()), uuid, params)
      ensures buffer == old(buffer)
    {
      var context := accessoryMap[uuid];
      var c := Topology.UpdateCircuit(context.circuit.value, params);
      if c.objectType == BODY_TYPE {
        var body := Topology.UpdateBody(c, params);
        accessoryMap := accessoryMap[uuid := context.(circuit := Some(body))];
        threw := UpdateHeaterStatuses(body);
      } else {
        accessoryMap := accessoryMap[uuid := context.(circuit := Some(c))];
        threw := false;
      }
    }

    /** The routing of one change by object name. */
    method RouteChange(objnam: string, params: Value) returns (threw: bool)
      modifies this
      ensures Run(Snapshot(), threw) == Routing.RouteChange(old(Snapshot()), objnam, params, settings.keys)
      ensures buffer == old(buffer)
    {
      if objnam in pumpIdToCircuitMap {
        threw := UpdatePumpAccessory(Uuid(pumpIdToCircuitMap[objnam].id), params);
      } else if Routing.RoutesToCircuit(Snapshot(), objnam) {
        threw := UpdateCircuitAccessory(Uuid(objnam), params);
      } else {
        threw := false;
      }
    }

    method ApplyChange(change: Value) returns (threw: bool)
      modifies this
      ensures Run(Snapshot(), threw) == Routing.ApplyChange(old(Snapshot()), change, settings.keys)
      ensures buffer == old(buffer)
    {
      if change.Null? {
        return true;
      }
      if !Routing.Routable(change) {
        return false;
      }
      threw := RouteChange(Get(change, OBJ_ID_KEY).value.s, Get(change, PARAMS_KEY).value);
    }

    /** `changes.forEach(...)`. */
    method ApplyChanges(changes: seq<Value>) returns (threw: bool)
      modifies this
      ensures Run(Snapshot(), threw) == Routing.ApplyChanges(old(Snapshot()), changes, settings.keys)
      ensures buffer == old(buffer)
    {
      for i := 0 to |changes|
        invariant Routing.ApplyChanges(old(Snapshot()), changes, settings.keys) == Routing.ApplyChanges(Snapshot(), changes[i..], settings.keys)
        invariant buffer == old(buffer)
      {
        assert changes[i..][1..] == changes[i + 1..];
        threw := ApplyChange(changes[i]);
        if threw {
          return;
        }
      }
      threw := false;
    }

    method ApplyItem(item: Value) returns (threw: bool)
      modifies this
      ensures Run(Snapshot(), threw) == Routing.ApplyItem(old(Snapshot()), item, settings.keys)
      ensures buffer == old(buffer)
    {
      if item.Null? {
        return true;
      }
      var changes := Routing.ChangesOf(item);
      if !changes.Arr? {
        return true;
      }
      threw := ApplyChanges(changes.items);
    }

    /** `response.objectList.forEach(...)`. */
    method ApplyItems(items: seq<Value>) returns (threw: bool)
      modifies this
      ensures Run(Snapshot(), threw) == Routing.ApplyItems(old(Snapshot()), items, settings.keys)
      ensures buffer == old(buffer)
    {
      for i := 0 to |items|
        invariant Routing.ApplyItems(old(Snapshot()), items, settings.keys) == Routing.ApplyItems(Snapshot(), items[i..], settings.keys)
        invariant buffer == old(buffer)
      {
        assert items[i..][1..] == items[i + 1..];
        threw := ApplyItem(items[i]);
        if threw {
          return;
        }
      }
      threw := false;
    }

    /** `handleUpdate`. */
    method HandleUpdate(response: Value) returns (threw: bool)
      modifies this, conn
      ensures Run(Snapshot(), threw) == Routing.HandleUpdate(old(Snapshot()), response, settings.keys)
      ensures buffer == old(buffer)
    {
      if response.Null? {
        return true;
      }
      if Routing.IsFailure(response) || Routing.IsRequestEcho(response) {
        return false;
      }
      if Routing.IsDiscoveryAnswer(response) {
        threw := HandleDiscoveryResponse(Get(response, "answer"));
        return;
      }
      if !Routing.IsNotification(response) {
        return false;
      }
      var objectList := Get(response, "objectList");
      if !Truthy(objectList) {
        return false;
      }
      if !objectList.value.Arr? {
        return true;
      }
      threw := ApplyItems(objectList.value.items);
    }

    // -------------------------------------------------------------------
    // The data handler

    /** One line of a completed chunk; parse failures and throws are caught. */
    method HandleLine(line: string)
      modifies this, conn
      ensures Snapshot() == Framing.HandleLine(old(Snapshot()), line, settings)
      ensures buffer == old(buffer)
    {
      if line != "" {
        var parsed := settings.parse(line);
        if parsed.Some? {
          var _ := HandleUpdate(parsed.value);
        }
      }
    }

    /** The `data` handler. */
    method OnData(chunk: string)
      modifies this, conn
      ensures Framing.Received(buffer, Snapshot()) == Framing.OnData(old(buffer), old(Snapshot()), chunk, settings)
    {
      if Framing.EndsLine(chunk) {
        var data := buffer + chunk;
        buffer := "";
        var lines := Split(data, '\n');
        for i := 0 to |lines|
          invariant Framing.HandleLines(old(Snapshot()), lines, settings) == Framing.HandleLines(Snapshot(), lines[i..], settings)
          invariant buffer == ""
        {
          assert lines[i..][1..] == lines[i + 1..];
          HandleLine(lines[i]);
        }
      } else if Framing.Exceeds(|buffer|, settings.maxBufferSize) {
        buffer := "";
      } else {
        buffer := buffer + chunk;
      }
    }
  }
}
