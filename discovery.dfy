/**
 * Discovery: the hardware-definition queries sent one at a time, the
 * answers merged into one buffer, and, once every query has been answered,
 * the transformed panels walked to create or refresh the accessories.
 */
module Discovery {
  import opened Wrappers
  import opened Json
  import opened Protocol
  import opened Topology
  import opened Commands
  import opened Registry
  import Merge

  /** `DISCOVER_COMMANDS[i]`, undefined past the end. */
  function CommandAt(commands: seq<string>, i: nat): (c: Option<string>)
    ensures c.Some? <==> i < |commands|
    ensures c.Some? ==> c.value == commands[i]
  {
    if i < |commands| then Some(commands[i]) else None
  }

  /** `discoverDeviceType`: the query is recorded as sent and sent. */
  function DiscoverDeviceType(st: State, deviceType: Option<string>): State {
    Send(st.(discoverCommandsSent := st.discoverCommandsSent + [deviceType]), GetQuery(deviceType))
  }

  /** `discoverDevices`: the first query. */
  function DiscoverDevices(st: State, k: Keys): State {
    DiscoverDeviceType(st, CommandAt(k.discoverCommands, 0))
  }

  /** `mergeResponse(buffer, answer)`; an undefined answer has no keys and changes nothing. */
  function MergedAnswer(buffer: Value, answer: Option<Value>): Value {
    if answer.None? then buffer else Merge.Merged(buffer, answer.value)
  }

  /** The discovery buffer after an answer: the first answer seeds it, later ones are merged in. */
  function Buffered(buffer: Option<Value>, answer: Option<Value>): Option<Value> {
    if buffer.None? then answer else Some(MergedAnswer(buffer.value, answer))
  }

  /** Merging the answer into the buffer throws; seeding the buffer never does. */
  predicate BufferThrows(buffer: Option<Value>, answer: Option<Value>) {
    buffer.Some? && answer.Some? && Merge.MergeThrows(buffer.value, answer.value)
  }

  /**
   * `handleDiscoveryResponse`: merge the answer, then either send the next
   * query or, when as many queries have been sent as there are, complete
   * discovery. A merge that throws ends the handler before any query.
   */
  function HandleDiscoveryResponse(st: State, answer: Option<Value>, k: Keys): Run {
    if BufferThrows(st.discoveryBuffer, answer) then Run(st, true) else
    var merged := st.(discoveryBuffer := Buffered(st.discoveryBuffer, answer));
    var n := |merged.discoverCommandsSent|;
    if n != |k.discoverCommands| then Run(DiscoverDeviceType(merged, CommandAt(k.discoverCommands, n)), false)
    else CompleteDiscovery(merged, k)
  }

  /** The keys a body, and a feature or pump circuit, are subscribed for. */
  const BODY_KEYS := [STATUS_KEY, LAST_TEMP_KEY, HEAT_SOURCE_KEY, HEATER_KEY, MODE_KEY]
  const CIRCUIT_KEYS := [STATUS_KEY, ACT_KEY]

  /** `subscribeForUpdates`. */
  function Subscribe(st: State, objnam: string, keys: seq<string>): State {
    Send(st, RequestParamList(objnam, keys))
  }

  /** `map.get(key)`. */
  function Lookup<V>(m: map<string, V>, key: string): Option<V> {
    if key in m then Some(m[key]) else None
  }

  /** The accessory under `u` holds the circuit whose id names `u`. */
  predicate CircuitNamed(accessories: map<Uuid, Context>, u: Uuid) {
    u in accessories && accessories[u].circuit.Some? && Uuid(accessories[u].circuit.value.id) == u
  }

  /** Only the accessories, the pump routing table and the request log change during discovery's walk. */
  ghost predicate Walked(before: State, after: State) {
    after.discoverCommandsSent == before.discoverCommandsSent &&
    after.discoveryBuffer == before.discoveryBuffer &&
    before.accessoryMap.Keys <= after.accessoryMap.Keys &&
    (forall u :: CircuitNamed(before.accessoryMap, u) ==> CircuitNamed(after.accessoryMap, u)) &&
    (forall u :: HeaterAt(before.heaters, u).Some? ==> HeaterAt(after.heaters, u).Some?) &&
    (forall u :: HeaterAt(before.heaters, u) == Some(Accessory) ==> HeaterAt(after.heaters, u) == Some(Accessory)) &&
    |before.sent| <= |after.sent| && after.sent[..|before.sent|] == before.sent
  }

  lemma WalkedTransitive(a: State, b: State, c: State)
    requires Walked(a, b) && Walked(b, c)
    ensures Walked(a, c)
  {
    assert c.sent[..|a.sent|] == c.sent[..|b.sent|][..|a.sent|];
  }

  /**
   * `discoverCircuit`: the accessory under the circuit's UUID is created or
   * refreshed with the circuit, its module, its panel and its pump circuit;
   * a pump circuit routes its id to this circuit.
   */
  function DiscoverCircuit(st: State, panel: Panel, owner: Option<Module>, circuit: Circuit, pumpCircuit: Option<PumpCircuit>): (s: State)
    ensures Uuid(circuit.id) in s.accessoryMap
    ensures s.accessoryMap[Uuid(circuit.id)].circuit == Some(circuit)
    ensures s.accessoryMap[Uuid(circuit.id)].pumpCircuit == pumpCircuit
    ensures Uuid(circuit.id) in st.accessoryMap ==>
      s.accessoryMap[Uuid(circuit.id)].body == st.accessoryMap[Uuid(circuit.id)].body &&
      s.accessoryMap[Uuid(circuit.id)].heater == st.accessoryMap[Uuid(circuit.id)].heater
    ensures forall u :: u in st.accessoryMap && u != Uuid(circuit.id) ==> u in s.accessoryMap && s.accessoryMap[u] == st.accessoryMap[u]
    ensures pumpCircuit.None? ==> s.pumpIdToCircuitMap == st.pumpIdToCircuitMap
    ensures pumpCircuit.Some? ==> s.pumpIdToCircuitMap == st.pumpIdToCircuitMap[pumpCircuit.value.id := circuit]
    ensures Walked(st, s) && s.sent == st.sent && s.heaters == st.heaters
  {
    var uuid := Uuid(circuit.id);
    var base := if uuid in st.accessoryMap then st.accessoryMap[uuid] else EMPTY_CONTEXT;
    var context := base.(circuit := Some(circuit), circuitModule := owner, panel := Some(panel), pumpCircuit := pumpCircuit);
    var s := st.(accessoryMap := st.accessoryMap[uuid := context]);
    if pumpCircuit.Some? then s.(pumpIdToCircuitMap := s.pumpIdToCircuitMap[pumpCircuit.value.id := circuit]) else s
  }

  /** The UUID of the accessory for one heater serving one body. */
  function HeaterUuid(heaterId: string, bodyId: string): Uuid {
    Uuid(heaterId + "." + bodyId)
  }

  /** For one heater, distinct body ids give distinct UUIDs. */
  lemma HeaterUuidOfBody(heaterId: string, b: string, d: string)
    requires HeaterUuid(heaterId, d) == HeaterUuid(heaterId, b)
    ensures d == b
  {
    var x := heaterId + "." + b;
    assert b == x[|heaterId| + 1..];
    assert d == (heaterId + "." + d)[|heaterId| + 1..];
  }

  /**
   * A heater id and a body id without a '.' name the only pair with their
   * UUID; with a '.' in them, `heater.id + "." + bodyId` can name two pairs.
   */
  lemma HeaterUuidInjective(a: string, b: string, c: string, d: string)
    requires '.' !in a && '.' !in b && HeaterUuid(c, d) == HeaterUuid(a, b)
    ensures c == a && d == b
  {
    var x := a + "." + b;
    assert x == c + "." + d;
    assert x[|c|] == '.';
    assert c == x[..|c|] && a == x[..|a|];
    assert d == x[|c| + 1..] && b == x[|a| + 1..];
  }

  /** One body id of `discoverHeater`: a known body gets a heater accessory, tracked in `heaters`; an unknown one is skipped. */
  function DiscoverHeaterBody(st: State, heater: Heater, bodyId: string, bodies: map<string, Circuit>): (s: State)
    ensures bodyId !in bodies ==> s == st
    ensures bodyId in bodies ==>
      var uuid := HeaterUuid(heater.id, bodyId);
      uuid in s.accessoryMap && s.accessoryMap[uuid].body == Some(bodies[bodyId]) &&
      s.accessoryMap[uuid].heater == Some(heater) && HeaterAt(s.heaters, uuid) == Some(Accessory)
    ensures forall u :: u in st.accessoryMap && u != HeaterUuid(heater.id, bodyId) ==> u in s.accessoryMap && s.accessoryMap[u] == st.accessoryMap[u]
    ensures Walked(st, s) && s.sent == st.sent && s.pumpIdToCircuitMap == st.pumpIdToCircuitMap
  {
    if bodyId !in bodies then st
    else
      var uuid := HeaterUuid(heater.id, bodyId);
      var base := if uuid in st.accessoryMap then st.accessoryMap[uuid] else EMPTY_CONTEXT;
      var context := base.(body := Some(bodies[bodyId]), heater := Some(heater));
      st.(accessoryMap := st.accessoryMap[uuid := context], heaters := SetHeater(st.heaters, uuid, Accessory))
  }

  /** `discoverHeater`: every body id in turn. */
  function DiscoverHeater(st: State, heater: Heater, bodyIds: seq<string>, bodies: map<string, Circuit>): (s: State)
    ensures forall i :: 0 <= i < |bodyIds| && bodyIds[i] in bodies ==>
      HeaterHolds(s.accessoryMap, HeaterUuid(heater.id, bodyIds[i]), heater, bodies[bodyIds[i]]) &&
      HeaterAt(s.heaters, HeaterUuid(heater.id, bodyIds[i])) == Some(Accessory)
    ensures forall u :: u in st.accessoryMap && (forall b :: b in bodyIds && b in bodies ==> u != HeaterUuid(heater.id, b)) ==>
      u in s.accessoryMap && s.accessoryMap[u] == st.accessoryMap[u]
    ensures Walked(st, s) && s.sent == st.sent && s.pumpIdToCircuitMap == st.pumpIdToCircuitMap
    decreases |bodyIds|
  {
    if bodyIds == [] then st
    else
      var next := DiscoverHeaterBody(st, heater, bodyIds[0], bodies);
      var s := DiscoverHeater(next, heater, bodyIds[1..], bodies);
      assert forall i :: 1 <= i < |bodyIds| ==> bodyIds[i] == bodyIds[1..][i - 1];
      assert bodyIds[0] in bodies ==> HeaterHolds(s.accessoryMap, HeaterUuid(heater.id, bodyIds[0]), heater, bodies[bodyIds[0]]) by {
        if bodyIds[0] in bodies {
          var u := HeaterUuid(heater.id, bodyIds[0]);
          if j :| 0 <= j < |bodyIds[1..]| && bodyIds[1..][j] in bodies && u == HeaterUuid(heater.id, bodyIds[1..][j]) {
            HeaterUuidOfBody(heater.id, bodyIds[0], bodyIds[1..][j]);
          }
        }
      }
      WalkedTransitive(st, next, s);
      s
  }

  /** The accessory under `u` holds `heater` and `body`, as `discoverHeater` leaves it. */
  predicate HeaterHolds(accessories: map<Uuid, Context>, u: Uuid, heater: Heater, body: Circuit) {
    u in accessories && accessories[u].heater == Some(heater) && accessories[u].body == Some(body)
  }

  /** The accessory under `u` holds a heater with id `heaterId`, and `body`. */
  predicate HeaterNamed(accessories: map<Uuid, Context>, u: Uuid, heaterId: string, body: Circuit) {
    u in accessories && accessories[u].heater.Some? && accessories[u].heater.value.id == heaterId && accessories[u].body == Some(body)
  }

  /** The accessory under `u` holds some heater and some body. */
  predicate HeaterBound(accessories: map<Uuid, Context>, u: Uuid) {
    u in accessories && accessories[u].heater.Some? && accessories[u].body.Some?
  }

  /** No pair of one of these heaters and a known body of it has the UUID `u`. */
  predicate Untouched(heaters: seq<Heater>, bodies: map<string, Circuit>, u: Uuid) {
    forall h, b :: h in heaters && b in h.bodyIds && b in bodies ==> u != HeaterUuid(h.id, b)
  }

  /** Every pair of one of these heaters and a known body of it has a heater accessory bound in `s`. */
  predicate HeatersBound(s: State, heaters: seq<Heater>, bodies: map<string, Circuit>) {
    forall h, id :: h in heaters && id in h.bodyIds && id in bodies ==>
      HeaterBound(s.accessoryMap, HeaterUuid(h.id, id)) && HeaterAt(s.heaters, HeaterUuid(h.id, id)) == Some(Accessory)
  }

  /** For ids without a '.', the accessory of each such pair holds that heater's id and that body. */
  predicate HeatersNamed(s: State, heaters: seq<Heater>, bodies: map<string, Circuit>) {
    forall h, id :: h in heaters && id in h.bodyIds && id in bodies && '.' !in h.id && '.' !in id ==>
      HeaterNamed(s.accessoryMap, HeaterUuid(h.id, id), h.id, bodies[id])
  }

  /** Every accessory of `st` under a UUID no such pair has is unchanged in `s`. */
  predicate UntouchedKept(st: State, s: State, heaters: seq<Heater>, bodies: map<string, Circuit>) {
    forall u :: u in st.accessoryMap && Untouched(heaters, bodies, u) ==> u in s.accessoryMap && s.accessoryMap[u] == st.accessoryMap[u]
  }

  /** The heater loop at the end of discovery. */
  function DiscoverHeaters(st: State, heaters: seq<Heater>, bodies: map<string, Circuit>): (s: State)
    ensures HeatersBound(s, heaters, bodies)
    ensures HeatersNamed(s, heaters, bodies)
    ensures UntouchedKept(st, s, heaters, bodies)
    ensures Walked(st, s) && s.sent == st.sent && s.pumpIdToCircuitMap == st.pumpIdToCircuitMap
    decreases |heaters|
  {
    if heaters == [] then st
    else
      var next := DiscoverHeater(st, heaters[0], heaters[0].bodyIds, bodies);
      var s := DiscoverHeaters(next, heaters[1..], bodies);
      WalkedTransitive(st, next, s);
      DiscoverHeatersStep(st, next, s, heaters, bodies);
      s
  }

  /** The first heater's pairs followed by the rest's: what the loop states of the rest extends to all heaters. */
  lemma DiscoverHeatersStep(st: State, next: State, s: State, heaters: seq<Heater>, bodies: map<string, Circuit>)
    requires heaters != [] && next == DiscoverHeater(st, heaters[0], heaters[0].bodyIds, bodies)
    requires HeatersBound(s, heaters[1..], bodies) && HeatersNamed(s, heaters[1..], bodies)
    requires UntouchedKept(next, s, heaters[1..], bodies) && Walked(next, s)
    ensures HeatersBound(s, heaters, bodies) && HeatersNamed(s, heaters, bodies) && UntouchedKept(st, s, heaters, bodies)
  {
    forall h, id | h in heaters && id in h.bodyIds && id in bodies
      ensures HeaterBound(s.accessoryMap, HeaterUuid(h.id, id)) && HeaterAt(s.heaters, HeaterUuid(h.id, id)) == Some(Accessory)
      ensures '.' !in h.id && '.' !in id ==> HeaterNamed(s.accessoryMap, HeaterUuid(h.id, id), h.id, bodies[id])
    {
      if h in heaters[1..] {
      } else {
        assert h == heaters[0];
        HeadHeaterHolds(st, next, h, id, bodies);
        HeadHeaterKept(next, s, h, id, heaters[1..], bodies);
      }
    }
    forall u | u in st.accessoryMap && Untouched(heaters, bodies, u)
      ensures u in s.accessoryMap && s.accessoryMap[u] == st.accessoryMap[u]
    {
      assert forall h :: h in heaters[1..] ==> h in heaters;
      assert Untouched(heaters[1..], bodies, u);
      assert heaters[0] in heaters;
    }
  }

  /** `discoverHeater` leaves each pair of the heater and a known body of it bound to the two. */
  lemma HeadHeaterHolds(st: State, next: State, h: Heater, id: string, bodies: map<string, Circuit>)
    requires next == DiscoverHeater(st, h, h.bodyIds, bodies) && id in h.bodyIds && id in bodies
    ensures HeaterHolds(next.accessoryMap, HeaterUuid(h.id, id), h, bodies[id])
    ensures HeaterAt(next.heaters, HeaterUuid(h.id, id)) == Some(Accessory)
  {
    var i :| 0 <= i < |h.bodyIds| && h.bodyIds[i] == id;
  }

  /**
   * A later heater overwrites the accessory of the first heater's pair only
   * under the same UUID, which names the same pair when the ids have no '.'.
   */
  lemma HeadHeaterKept(next: State, s: State, h0: Heater, id: string, rest: seq<Heater>, bodies: map<string, Circuit>)
    requires id in bodies && HeaterHolds(next.accessoryMap, HeaterUuid(h0.id, id), h0, bodies[id])
    requires forall h, b :: h in rest && b in h.bodyIds && b in bodies ==> HeaterBound(s.accessoryMap, HeaterUuid(h.id, b))
    requires forall h, b :: h in rest && b in h.bodyIds && b in bodies && '.' !in h.id && '.' !in b ==>
      HeaterNamed(s.accessoryMap, HeaterUuid(h.id, b), h.id, bodies[b])
    requires forall u :: u in next.accessoryMap && Untouched(rest, bodies, u) ==> u in s.accessoryMap && s.accessoryMap[u] == next.accessoryMap[u]
    ensures HeaterBound(s.accessoryMap, HeaterUuid(h0.id, id))
    ensures '.' !in h0.id && '.' !in id ==>
      HeaterNamed(s.accessoryMap, HeaterUuid(h0.id, id), h0.id, bodies[id])
  {
    var u := HeaterUuid(h0.id, id);
    if !Untouched(rest, bodies, u) {
      var h, b :| h in rest && b in h.bodyIds && b in bodies && u == HeaterUuid(h.id, b);
      if '.' !in h0.id && '.' !in id {
        HeaterUuidInjective(h0.id, id, h.id, b);
      }
    }
  }

  /** The locals of the walk over the panels: the state, the pump circuits by circuit id, the bodies by id, the heaters met, and whether it threw. */
  datatype Walk = Walk(st: State, pumpCircuits: map<string, PumpCircuit>, bodies: map<string, Circuit>, heaters: seq<Heater>, threw: bool)

  /** Every body is recorded under its own id. */
  predicate BodiesKeyed(bodies: map<string, Circuit>) {
    forall id :: id in bodies ==> bodies[id].id == id
  }

  /** What a later point of the walk keeps from an earlier one. */
  ghost predicate Extends(w: Walk, r: Walk) {
    Walked(w.st, r.st) && w.bodies.Keys <= r.bodies.Keys && (BodiesKeyed(w.bodies) ==> BodiesKeyed(r.bodies)) &&
    (forall h :: h in w.heaters ==> h in r.heaters) && (w.threw ==> r.threw)
  }

  lemma ExtendsTransitive(a: Walk, b: Walk, c: Walk)
    requires Extends(a, b) && Extends(b, c)
    ensures Extends(a, c)
  {
    WalkedTransitive(a.st, b.st, c.st);
  }

  /** The pump circuits of one pump: each is recorded by its circuit id and subscribed for. */
  function WalkPumpCircuits(w: Walk, circuits: seq<PumpCircuit>): (r: Walk)
    ensures Extends(w, r) && r.st.accessoryMap == w.st.accessoryMap && r.threw == w.threw
    ensures r.st.pumpIdToCircuitMap == w.st.pumpIdToCircuitMap
    ensures w.pumpCircuits.Keys <= r.pumpCircuits.Keys
    ensures forall pc :: pc in circuits ==> pc.circuitId in r.pumpCircuits
    ensures |circuits| > 0 ==> r.pumpCircuits[circuits[|circuits| - 1].circuitId] == circuits[|circuits| - 1]
    decreases |circuits|
  {
    if circuits == [] then w
    else
      var pc := circuits[0];
      var next := w.(pumpCircuits := w.pumpCircuits[pc.circuitId := pc], st := Subscribe(w.st, pc.id, CIRCUIT_KEYS));
      var r := WalkPumpCircuits(next, circuits[1..]);
      ExtendsTransitive(w, next, r);
      r
  }

  /** One pump: `for (const pumpCircuit of pump.circuits)` throws when the circuits are undefined. */
  function WalkPump(w: Walk, pump: Pump): (r: Walk)
    ensures Extends(w, r) && r.st.accessoryMap == w.st.accessoryMap
    ensures r.st.pumpIdToCircuitMap == w.st.pumpIdToCircuitMap
    ensures pump.circuits.None? ==> r == w.(threw := true)
  {
    if pump.circuits.None? then w.(threw := true) else WalkPumpCircuits(w, pump.circuits.value)
  }

  /** All pumps of a panel, stopping at the first throw. */
  function WalkPumps(w: Walk, pumps: seq<Pump>): (r: Walk)
    ensures Extends(w, r) && r.st.accessoryMap == w.st.accessoryMap
    ensures r.st.pumpIdToCircuitMap == w.st.pumpIdToCircuitMap
    ensures (forall p :: p in pumps ==> p.circuits.None?) ==>
      r.st == w.st && r.pumpCircuits == w.pumpCircuits && (r.threw <==> w.threw || pumps != [])
    decreases |pumps|
  {
    if w.threw || pumps == [] then w
    else
      var next := WalkPump(w, pumps[0]);
      var r := WalkPumps(next, pumps[1..]);
      ExtendsTransitive(w, next, r);
      assert forall p :: p in pumps[1..] ==> p in pumps;
      r
  }

  /** The bodies of a module: each gets an accessory, is subscribed for and is recorded by id. */
  function WalkBodies(w: Walk, panel: Panel, owner: Module, bodies: seq<Circuit>): (r: Walk)
    ensures Extends(w, r) && r.pumpCircuits == w.pumpCircuits && r.threw == w.threw
    ensures forall b :: b in bodies ==> CircuitNamed(r.st.accessoryMap, Uuid(b.id)) && b.id in r.bodies
    ensures w.pumpCircuits == map[] ==> r.st.pumpIdToCircuitMap == w.st.pumpIdToCircuitMap
    decreases |bodies|
  {
    if bodies == [] then w
    else
      var body := bodies[0];
      var st := DiscoverCircuit(w.st, panel, Some(owner), body, Lookup(w.pumpCircuits, body.id));
      var next := w.(st := Subscribe(st, body.id, BODY_KEYS), bodies := w.bodies[body.id := body]);
      WalkedTransitive(w.st, st, next.st);
      var r := WalkBodies(next, panel, owner, bodies[1..]);
      ExtendsTransitive(w, next, r);
      assert forall b :: b in bodies ==> b == body || b in bodies[1..];
      r
  }

  /** Features, of a module or held directly by the panel: each gets an accessory and is subscribed for. */
  function WalkFeatures(w: Walk, panel: Panel, owner: Option<Module>, features: seq<Circuit>): (r: Walk)
    ensures Extends(w, r) && r.pumpCircuits == w.pumpCircuits && r.threw == w.threw
    ensures r.bodies == w.bodies && r.heaters == w.heaters
    ensures forall f :: f in features ==> CircuitNamed(r.st.accessoryMap, Uuid(f.id))
    ensures w.pumpCircuits == map[] ==> r.st.pumpIdToCircuitMap == w.st.pumpIdToCircuitMap
    decreases |features|
  {
    if features == [] then w
    else
      var feature := features[0];
      var st := DiscoverCircuit(w.st, panel, owner, feature, Lookup(w.pumpCircuits, feature.id));
      var next := w.(st := Subscribe(st, feature.id, CIRCUIT_KEYS));
      WalkedTransitive(w.st, st, next.st);
      var r := WalkFeatures(next, panel, owner, features[1..]);
      ExtendsTransitive(w, next, r);
      assert forall f :: f in features ==> f == feature || f in features[1..];
      r
  }

  /** One module: its bodies, then its features, then its heaters collected for later. */
  function WalkModule(w: Walk, panel: Panel, m: Module): (r: Walk)
    ensures Extends(w, r) && r.pumpCircuits == w.pumpCircuits && r.threw == w.threw
    ensures forall b :: b in m.bodies ==> CircuitNamed(r.st.accessoryMap, Uuid(b.id)) && b.id in r.bodies
    ensures forall f :: f in m.features ==> CircuitNamed(r.st.accessoryMap, Uuid(f.id))
    ensures forall h :: h in m.heaters ==> h in r.heaters
    ensures w.pumpCircuits == map[] ==> r.st.pumpIdToCircuitMap == w.st.pumpIdToCircuitMap
  {
    var afterBodies := WalkBodies(w, panel, m, m.bodies);
    var afterFeatures := WalkFeatures(afterBodies, panel, Some(m), m.features);
    ExtendsTransitive(w, afterBodies, afterFeatures);
    afterFeatures.(heaters := afterFeatures.heaters + m.heaters)
  }

  /** Every circuit a panel's modules and the panel itself yield. */
  predicate ModulesRegistered(modules: seq<Module>, w: Walk) {
    forall m :: m in modules ==>
      (forall b :: b in m.bodies ==> CircuitNamed(w.st.accessoryMap, Uuid(b.id)) && b.id in w.bodies) &&
      (forall f :: f in m.features ==> CircuitNamed(w.st.accessoryMap, Uuid(f.id))) &&
      (forall h :: h in m.heaters ==> h in w.heaters)
  }

  lemma ModulesRegisteredKept(modules: seq<Module>, w: Walk, r: Walk)
    requires ModulesRegistered(modules, w) && Extends(w, r)
    ensures ModulesRegistered(modules, r)
  {
  }

  function WalkModules(w: Walk, panel: Panel, modules: seq<Module>): (r: Walk)
    ensures Extends(w, r) && r.pumpCircuits == w.pumpCircuits && r.threw == w.threw
    ensures ModulesRegistered(modules, r)
    ensures w.pumpCircuits == map[] ==> r.st.pumpIdToCircuitMap == w.st.pumpIdToCircuitMap
    decreases |modules|
  {
    if modules == [] then w
    else
      var next := WalkModule(w, panel, modules[0]);
      var r := WalkModules(next, panel, modules[1..]);
      ExtendsTransitive(w, next, r);
      ModulesRegisteredKept([modules[0]], next, r);
      assert forall m :: m in modules ==> m == modules[0] || m in modules[1..];
      r
  }

  /** Every circuit of a panel and every heater of its modules has been met. */
  predicate PanelRegistered(panel: Panel, w: Walk) {
    ModulesRegistered(panel.modules, w) && forall f :: f in panel.features ==> CircuitNamed(w.st.accessoryMap, Uuid(f.id))
  }

  /** One panel: its pumps, then its modules, then the features held directly. */
  function WalkPanel(w: Walk, panel: Panel): (r: Walk)
    ensures Extends(w, r)
    ensures !r.threw ==> PanelRegistered(panel, r)
    ensures (forall p :: p in panel.pumps ==> p.circuits.None?) && w.pumpCircuits == map[] ==>
      r.pumpCircuits == map[] && r.st.pumpIdToCircuitMap == w.st.pumpIdToCircuitMap && (r.threw <==> w.threw || panel.pumps != [])
  {
    var afterPumps := WalkPumps(w, panel.pumps);
    if afterPumps.threw then afterPumps
    else
      var afterModules := WalkModules(afterPumps, panel, panel.modules);
      var r := WalkFeatures(afterModules, panel, None, panel.features);
      ExtendsTransitive(w, afterPumps, afterModules);
      ExtendsTransitive(w, afterModules, r);
      ModulesRegisteredKept(panel.modules, afterModules, r);
      r
  }

  predicate PanelsRegistered(panels: seq<Panel>, w: Walk) {
    forall panel :: panel in panels ==> PanelRegistered(panel, w)
  }

  lemma PanelsRegisteredKept(panels: seq<Panel>, w: Walk, r: Walk)
    requires PanelsRegistered(panels, w) && Extends(w, r)
    ensures PanelsRegistered(panels, r)
  {
    forall panel | panel in panels
      ensures PanelRegistered(panel, r)
    {
      ModulesRegisteredKept(panel.modules, w, r);
    }
  }

  /** The panels in order, stopping at the first throw. */
  function WalkPanels(w: Walk, panels: seq<Panel>): (r: Walk)
    ensures Extends(w, r)
    ensures !r.threw ==> PanelsRegistered(panels, r)
    decreases |panels|
  {
    if w.threw || panels == [] then w
    else
      var next := WalkPanel(w, panels[0]);
      var r := WalkPanels(next, panels[1..]);
      ExtendsTransitive(w, next, r);
      assert !r.threw ==> PanelsRegistered(panels, r) by {
        if !r.threw {
          PanelsRegisteredKept([panels[0]], next, r);
          assert forall p :: p in panels ==> p == panels[0] || p in panels[1..];
        }
      }
      r
  }

  /** No pump of any of these panels carries circuits. */
  predicate NoPumpCircuits(panels: seq<Panel>) {
    forall panel, pump :: panel in panels && pump in panel.pumps ==> pump.circuits.None?
  }

  /** Some panel has a pump. */
  predicate HasPump(panels: seq<Panel>) {
    exists panel :: panel in panels && panel.pumps != []
  }

  /** Without pump circuits, the walk leaves the routing table as it found it, and it throws exactly when a pump is met. */
  lemma {:induction false} WalkPanelsWithoutPumpCircuits(w: Walk, panels: seq<Panel>)
    requires NoPumpCircuits(panels) && w.pumpCircuits == map[] && !w.threw
    ensures WalkPanels(w, panels).st.pumpIdToCircuitMap == w.st.pumpIdToCircuitMap
    ensures WalkPanels(w, panels).threw <==> HasPump(panels)
    decreases |panels|
  {
    if panels != [] {
      var next := WalkPanel(w, panels[0]);
      assert forall p :: p in panels[1..] ==> p in panels;
      if panels[0].pumps == [] {
        WalkPanelsWithoutPumpCircuits(next, panels[1..]);
        assert HasPump(panels) ==> HasPump(panels[1..]) by {
          if HasPump(panels) {
            var p :| p in panels && p.pumps != [];
            assert p in panels[1..];
          }
        }
      } else {
        assert HasPump(panels) by { assert panels[0] in panels; }
      }
    }
  }

  /**
   * The end of discovery: transform the buffer into panels, clear the pump
   * routing table, walk the panels, then create the heater accessories. A
   * throw anywhere keeps the effects made before it.
   */
  function CompleteDiscovery(st: State, k: Keys): (r: Run)
    ensures Walked(st, r.st)
  {
    match TransformPanels(st.discoveryBuffer, k)
    case Thrown => Run(st, true)
    case Ok(panels) =>
      var cleared := st.(pumpIdToCircuitMap := map[]);
      var w := WalkPanels(Walk(cleared, map[], map[], [], false), panels);
      if w.threw then Run(w.st, true)
      else
        var s := DiscoverHeaters(w.st, w.heaters, w.bodies);
        WalkedTransitive(st, w.st, s);
        Run(s, false)
  }

  // ---------------------------------------------------------------------
  // What discovery guarantees

  /** `Some` of each command: `discoverCommandsSent` after sending these. */
  function Sent(commands: seq<string>): (r: seq<Option<string>>)
    ensures |r| == |commands| && forall i :: 0 <= i < |commands| ==> r[i] == Some(commands[i])
  {
    seq(|commands|, i requires 0 <= i < |commands| => Some(commands[i]))
  }

  /** The first query is the first discovery command. */
  lemma DiscoverDevicesSendsFirst(st: State, k: Keys)
    requires st.discoverCommandsSent == [] && k.discoverCommands != []
    ensures DiscoverDevices(st, k).discoverCommandsSent == Sent(k.discoverCommands[..1])
    ensures DiscoverDevices(st, k).sent == st.sent + [GetQuery(Some(k.discoverCommands[0]))]
  {
  }

  /** An answer whose merge throws stops discovery: nothing is sent and nothing changes. */
  lemma DiscoveryStalls(st: State, answer: Option<Value>, k: Keys)
    requires BufferThrows(st.discoveryBuffer, answer)
    ensures var r := HandleDiscoveryResponse(st, answer, k);
      r.threw && r.st.sent == st.sent && r.st.discoverCommandsSent == st.discoverCommandsSent &&
      r.st.discoveryBuffer == st.discoveryBuffer
  {
  }

  /** Only an answer merged into a buffer holding arrays can throw. */
  lemma SeedingNeverThrows(st: State, answer: Option<Value>, k: Keys)
    requires st.discoveryBuffer.None? || answer.None?
    ensures !BufferThrows(st.discoveryBuffer, answer)
    ensures HandleDiscoveryResponse(st, answer, k).st.discoveryBuffer != st.discoveryBuffer ==> answer.Some?
  {
  }

  /**
   * While queries remain, an answer whose merge does not throw is merged
   * and the next command in order is sent; nothing else changes.
   */
  lemma DiscoveryAdvances(st: State, answer: Option<Value>, k: Keys, n: nat)
    requires 1 <= n < |k.discoverCommands| && st.discoverCommandsSent == Sent(k.discoverCommands[..n])
    ensures BufferThrows(st.discoveryBuffer, answer) ==> HandleDiscoveryResponse(st, answer, k) == Run(st, true)
    ensures var r := HandleDiscoveryResponse(st, answer, k);
      !BufferThrows(st.discoveryBuffer, answer) ==>
      !r.threw &&
      r.st.discoverCommandsSent == Sent(k.discoverCommands[..n + 1]) &&
      r.st.sent == st.sent + [GetQuery(Some(k.discoverCommands[n]))] &&
      r.st.discoveryBuffer == Buffered(st.discoveryBuffer, answer) &&
      r.st.accessoryMap == st.accessoryMap && r.st.heaters == st.heaters &&
      r.st.pumpIdToCircuitMap == st.pumpIdToCircuitMap
  {
    assert Sent(k.discoverCommands[..n]) + [Some(k.discoverCommands[n])] == Sent(k.discoverCommands[..n + 1]);
  }

  /** When every command has been sent, the answer completes discovery: no further query is sent. */
  lemma DiscoveryCompletes(st: State, answer: Option<Value>, k: Keys)
    requires |st.discoverCommandsSent| == |k.discoverCommands|
    ensures BufferThrows(st.discoveryBuffer, answer) ==> HandleDiscoveryResponse(st, answer, k) == Run(st, true)
    ensures !BufferThrows(st.discoveryBuffer, answer) ==>
      HandleDiscoveryResponse(st, answer, k) == CompleteDiscovery(st.(discoveryBuffer := Buffered(st.discoveryBuffer, answer)), k)
    ensures HandleDiscoveryResponse(st, answer, k).st.discoverCommandsSent == st.discoverCommandsSent
    ensures !BufferThrows(st.discoveryBuffer, answer) ==>
      HandleDiscoveryResponse(st, answer, k).st.discoveryBuffer == Buffered(st.discoveryBuffer, answer)
  {
  }

  /**
   * Once more queries have been sent than there are commands (discovery
   * started again after a completed cycle), every answer sends an undefined
   * query and discovery never completes again.
   */
  lemma DiscoveryOverrun(st: State, answer: Option<Value>, k: Keys)
    requires |st.discoverCommandsSent| > |k.discoverCommands|
    ensures BufferThrows(st.discoveryBuffer, answer) ==> HandleDiscoveryResponse(st, answer, k) == Run(st, true)
    ensures var r := HandleDiscoveryResponse(st, answer, k);
      !BufferThrows(st.discoveryBuffer, answer) ==>
      !r.threw && r.st.discoverCommandsSent == st.discoverCommandsSent + [None] &&
      |r.st.discoverCommandsSent| > |k.discoverCommands| &&
      r.st.sent == st.sent + [GetQuery(None)] && r.st.accessoryMap == st.accessoryMap
  {
  }

  /**
   * Completing discovery when the buffer transforms: the pump routing table
   * ends empty, because no transformed pump has circuits, and the walk throws
   * exactly when some panel has a pump.
   */
  lemma CompleteDiscoveryRouting(st: State, k: Keys)
    requires TransformPanels(st.discoveryBuffer, k).Ok?
    ensures CompleteDiscovery(st, k).st.pumpIdToCircuitMap == map[]
    ensures CompleteDiscovery(st, k).threw <==> HasPump(TransformPanels(st.discoveryBuffer, k).value)
  {
    var panels := TransformPanels(st.discoveryBuffer, k).value;
    PanelPumpsHaveNoCircuits(st.discoveryBuffer, k);
    WalkPanelsWithoutPumpCircuits(Walk(st.(pumpIdToCircuitMap := map[]), map[], map[], [], false), panels);
  }

  /** A body of a module of one of the panels. */
  predicate BodyDiscovered(panels: seq<Panel>, id: string) {
    exists panel, m, b :: panel in panels && m in panel.modules && b in m.bodies && b.id == id
  }

  /** A heater of a module of one of the panels. */
  predicate HeaterDiscovered(panels: seq<Panel>, h: Heater) {
    exists panel, m :: panel in panels && m in panel.modules && h in m.heaters
  }

  /** A body or feature of a module of one of the panels, or a feature held by a panel. */
  predicate CircuitDiscovered(panels: seq<Panel>, c: Circuit) {
    (exists panel :: panel in panels && c in panel.features) ||
    exists panel, m :: panel in panels && m in panel.modules && (c in m.bodies || c in m.features)
  }

  /**
   * When discovery completes without a throw, every discovered circuit has
   * an accessory under its UUID, and every heater has one accessory per
   * body id naming a discovered body, each tracked in `heaters`. Accessories
   * restored before are kept.
   */
  lemma CompleteDiscoveryRegisters(st: State, k: Keys)
    requires TransformPanels(st.discoveryBuffer, k).Ok? && !CompleteDiscovery(st, k).threw
    ensures var panels := TransformPanels(st.discoveryBuffer, k).value;
      var s := CompleteDiscovery(st, k).st;
      st.accessoryMap.Keys <= s.accessoryMap.Keys &&
      (forall c :: CircuitDiscovered(panels, c) ==>
        Uuid(c.id) in s.accessoryMap && s.accessoryMap[Uuid(c.id)].circuit.Some? && s.accessoryMap[Uuid(c.id)].circuit.value.id == c.id) &&
      (forall h, id :: HeaterDiscovered(panels, h) && id in h.bodyIds && BodyDiscovered(panels, id) ==>
        HeaterUuid(h.id, id) in s.accessoryMap && HeaterAt(s.heaters, HeaterUuid(h.id, id)) == Some(Accessory) &&
        s.accessoryMap[HeaterUuid(h.id, id)].heater.Some? && s.accessoryMap[HeaterUuid(h.id, id)].body.Some?) &&
      (forall h, id :: HeaterDiscovered(panels, h) && id in h.bodyIds && BodyDiscovered(panels, id) && '.' !in h.id && '.' !in id ==>
        s.accessoryMap[HeaterUuid(h.id, id)].heater.value.id == h.id && s.accessoryMap[HeaterUuid(h.id, id)].body.value.id == id)
  {
    var panels := TransformPanels(st.discoveryBuffer, k).value;
    var w := WalkPanels(Walk(st.(pumpIdToCircuitMap := map[]), map[], map[], [], false), panels);
    assert !w.threw;
    var s := DiscoverHeaters(w.st, w.heaters, w.bodies);
    assert CompleteDiscovery(st, k).st == s;
    assert BodiesKeyed(w.bodies);
    forall c | CircuitDiscovered(panels, c)
      ensures CircuitNamed(s.accessoryMap, Uuid(c.id))
    {
      CircuitMet(panels, w, c);
    }
    forall h, id | HeaterDiscovered(panels, h) && id in h.bodyIds && BodyDiscovered(panels, id)
      ensures h in w.heaters && id in w.bodies
    {
      HeaterAndBodyMet(panels, w, h, id);
    }
  }

  lemma CircuitMet(panels: seq<Panel>, w: Walk, c: Circuit)
    requires PanelsRegistered(panels, w) && CircuitDiscovered(panels, c)
    ensures CircuitNamed(w.st.accessoryMap, Uuid(c.id))
  {
    if exists panel :: panel in panels && c in panel.features {
      var panel :| panel in panels && c in panel.features;
      assert PanelRegistered(panel, w);
    } else {
      var panel, m :| panel in panels && m in panel.modules && (c in m.bodies || c in m.features);
      assert PanelRegistered(panel, w);
    }
  }

  lemma HeaterAndBodyMet(panels: seq<Panel>, w: Walk, h: Heater, id: string)
    requires PanelsRegistered(panels, w) && HeaterDiscovered(panels, h) && BodyDiscovered(panels, id)
    ensures h in w.heaters && id in w.bodies
  {
    var panel, m :| panel in panels && m in panel.modules && h in m.heaters;
    assert PanelRegistered(panel, w);
    var panel2, m2, b :| panel2 in panels && m2 in panel2.modules && b in m2.bodies && b.id == id;
    assert PanelRegistered(panel2, w);
  }
}
