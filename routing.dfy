/**
 * `handleUpdate`: one parsed response from the controller. Failed responses
 * and echoes of the bridge's own requests are ignored, hardware-definition
 * answers drive discovery, and notifications are unwrapped into changes
 * that are routed by object name to the accessory they concern.
 */
module Routing {
  import opened Wrappers
  import opened Json
  import opened Protocol
  import opened Topology
  import opened Registry
  import Discovery

  /** The parts of a change that decide its routing: both must be truthy, and the name a string. */
  predicate Routable(change: Value) {
    Truthy(Get(change, OBJ_ID_KEY)) && Truthy(Get(change, PARAMS_KEY)) && Get(change, OBJ_ID_KEY).value.Str?
  }

  /** Only the accessory contexts change while updates are routed; no accessory is added or removed. */
  predicate OnlyContexts(before: State, after: State) {
    after == before.(accessoryMap := after.accessoryMap) && after.accessoryMap.Keys == before.accessoryMap.Keys
  }

  /**
   * The platform's `updatePump`: the pump circuit in the accessory's
   * context gets the status, selection and speed updates. A missing
   * accessory throws; a missing pump circuit throws as soon as one of the
   * three parameters is there to be written into it.
   */
  function UpdatePumpAccessory(st: State, uuid: Uuid, params: Value, k: Keys): (r: Run)
    ensures OnlyContexts(st, r.st)
    ensures uuid !in st.accessoryMap ==> r == Run(st, true)
    ensures uuid in st.accessoryMap && st.accessoryMap[uuid].pumpCircuit.None? ==>
      r.st == st && (r.threw <==> Truthy(Get(params, STATUS_KEY)) || Truthy(Get(params, k.selectKey)) || Truthy(Get(params, k.speedKey)))
    ensures uuid in st.accessoryMap && st.accessoryMap[uuid].pumpCircuit.Some? ==>
      var pc := st.accessoryMap[uuid].pumpCircuit.value;
      !r.threw && r.st.accessoryMap == st.accessoryMap[uuid := st.accessoryMap[uuid].(pumpCircuit := Some(
        pc.(status := Pick(pc.status, Get(params, STATUS_KEY)),
            speedType := Pick(pc.speedType, Get(params, k.selectKey)),
            speed := Pick(pc.speed, Get(params, k.speedKey)))))]
  {
    if uuid !in st.accessoryMap then Run(st, true)
    else
      var context := st.accessoryMap[uuid];
      if context.pumpCircuit.None? then
        Run(st, Truthy(Get(params, STATUS_KEY)) || Truthy(Get(params, k.selectKey)) || Truthy(Get(params, k.speedKey)))
      else
        var pc := UpdatedPump(UpdatedPumpStatus(context.pumpCircuit.value, params), params, k);
        Run(st.(accessoryMap := st.accessoryMap[uuid := context.(pumpCircuit := Some(pc))]), false)
  }

  /**
   * The platform's `updateCircuit`: the circuit in the accessory's context
   * gets the status update; a body also gets the body updates and then the
   * heater accessories bound to it are refreshed.
   */
  function UpdateCircuitAccessory(st: State, uuid: Uuid, params: Value): (r: Run)
    requires uuid in st.accessoryMap && st.accessoryMap[uuid].circuit.Some?
    ensures OnlyContexts(st, r.st)
    ensures st.accessoryMap[uuid].circuit.value.objectType != BODY_TYPE ==>
      !r.threw && r.st.accessoryMap == st.accessoryMap[uuid := st.accessoryMap[uuid].(circuit := Some(UpdatedCircuit(st.accessoryMap[uuid].circuit.value, params)))]
    ensures st.accessoryMap[uuid].circuit.value.objectType == BODY_TYPE ==>
      var body := UpdatedBody(UpdatedCircuit(st.accessoryMap[uuid].circuit.value, params), params);
      r == UpdateHeaterStatuses(st.(accessoryMap := st.accessoryMap[uuid := st.accessoryMap[uuid].(circuit := Some(body))]), body)
  {
    var context := st.accessoryMap[uuid];
    var c := UpdatedCircuit(context.circuit.value, params);
    if c.objectType == BODY_TYPE then
      var body := UpdatedBody(c, params);
      UpdateHeaterStatuses(st.(accessoryMap := st.accessoryMap[uuid := context.(circuit := Some(body))]), body)
    else
      Run(st.(accessoryMap := st.accessoryMap[uuid := context.(circuit := Some(c))]), false)
  }

  /** The accessory for `objnam` exists and holds a circuit of a type whose updates are routed to it. */
  predicate RoutesToCircuit(st: State, objnam: string) {
    Uuid(objnam) in st.accessoryMap && st.accessoryMap[Uuid(objnam)].circuit.Some? &&
    st.accessoryMap[Uuid(objnam)].circuit.value.objectType in CIRCUIT_TYPES
  }

  /**
   * One change with a name and parameters: a pump circuit id goes to the
   * accessory of the circuit it drives; any other name goes to its own
   * accessory if that holds a circuit or body; anything else is skipped.
   */
  function RouteChange(st: State, objnam: string, params: Value, k: Keys): (r: Run)
    ensures OnlyContexts(st, r.st)
    ensures objnam in st.pumpIdToCircuitMap ==>
      r == UpdatePumpAccessory(st, Uuid(st.pumpIdToCircuitMap[objnam].id), params, k)
    ensures objnam !in st.pumpIdToCircuitMap && RoutesToCircuit(st, objnam) ==>
      r == UpdateCircuitAccessory(st, Uuid(objnam), params)
    ensures objnam !in st.pumpIdToCircuitMap && !RoutesToCircuit(st, objnam) ==> r == Run(st, false)
  {
    if objnam in st.pumpIdToCircuitMap then
      UpdatePumpAccessory(st, Uuid(st.pumpIdToCircuitMap[objnam].id), params, k)
    else if RoutesToCircuit(st, objnam) then
      UpdateCircuitAccessory(st, Uuid(objnam), params)
    else
      Run(st, false)
  }

  /** One entry of a change list: `change.objnam` throws on null; an entry without a name or parameters is ignored. */
  function ApplyChange(st: State, change: Value, k: Keys): (r: Run)
    ensures OnlyContexts(st, r.st)
    ensures change.Null? ==> r == Run(st, true)
    ensures !change.Null? && !Routable(change) ==> r == Run(st, false)
    ensures !change.Null? && Routable(change) ==>
      r == RouteChange(st, Get(change, OBJ_ID_KEY).value.s, Get(change, PARAMS_KEY).value, k)
  {
    if change.Null? then Run(st, true)
    else if !Routable(change) then Run(st, false)
    else RouteChange(st, Get(change, OBJ_ID_KEY).value.s, Get(change, PARAMS_KEY).value, k)
  }

  /** `changes.forEach(...)`: the changes in order; a throw ends the loop and keeps what was done before it. */
  function ApplyChanges(st: State, changes: seq<Value>, k: Keys): (r: Run)
    ensures OnlyContexts(st, r.st)
    decreases |changes|
  {
    if changes == [] then Run(st, false)
    else
      var first := ApplyChange(st, changes[0], k);
      if first.threw then first
      else
        ApplyChanges(first.st, changes[1..], k)
  }

  /** The change list of an object-list entry: its truthy `changes`, or the entry itself. */
  function ChangesOf(item: Value): Value
    requires !item.Null?
  {
    if Truthy(Get(item, "changes")) then Get(item, "changes").value else Arr([item])
  }

  /** One entry of `objectList`: reading `changes` throws on null; a change list that is not an array throws at `forEach`. */
  function ApplyItem(st: State, item: Value, k: Keys): (r: Run)
    ensures OnlyContexts(st, r.st)
    ensures item.Null? ==> r == Run(st, true)
    ensures !item.Null? && !Truthy(Get(item, "changes")) ==> r == ApplyChange(st, item, k)
    ensures !item.Null? && Truthy(Get(item, "changes")) && Get(item, "changes").value.Arr? ==>
      r == ApplyChanges(st, Get(item, "changes").value.items, k)
    ensures !item.Null? && Truthy(Get(item, "changes")) && !Get(item, "changes").value.Arr? ==> r == Run(st, true)
  {
    if item.Null? then Run(st, true)
    else
      var changes := ChangesOf(item);
      if !changes.Arr? then Run(st, true)
      else
        var r := ApplyChanges(st, changes.items, k);
        assert !Truthy(Get(item, "changes")) ==> r == ApplyChange(st, item, k) by {
          if !Truthy(Get(item, "changes")) {
            assert changes.items == [item];
            var first := ApplyChange(st, item, k);
            assert changes.items[1..] == [];
            assert ApplyChanges(first.st, [], k) == Run(first.st, false);
            assert first.threw || first == Run(first.st, false);
          }
        }
        r
  }

  /** `objectList.forEach(...)`: the entries in order, stopping at the first throw. */
  function ApplyItems(st: State, items: seq<Value>, k: Keys): (r: Run)
    ensures OnlyContexts(st, r.st)
    decreases |items|
  {
    if items == [] then Run(st, false)
    else
      var first := ApplyItem(st, items[0], k);
      if first.threw then first else ApplyItems(first.st, items[1..], k)
  }

  /** The response's command is one of the bridge's own request commands. */
  predicate IsRequestEcho(response: Value) {
    var command := Get(response, "command");
    command.Some? && command.value.Str? && command.value.s in REQUEST_COMMANDS
  }

  /** The response carries a truthy status other than "200". */
  predicate IsFailure(response: Value) {
    Truthy(Get(response, "response")) && Get(response, "response").value != Str(RESPONSE_OK)
  }

  predicate IsDiscoveryAnswer(response: Value) {
    Get(response, "command") == Some(Str(SEND_QUERY)) && Get(response, "queryName") == Some(Str(GET_HARDWARE_DEFINITION))
  }

  predicate IsNotification(response: Value) {
    Get(response, "command") == Some(Str(NOTIFY_LIST)) || Get(response, "command") == Some(Str(WRITE_PARAM_LIST))
  }

  /** `handleUpdate`, on the parsed line. Reading `response.response` throws when the line is `null`. */
  function HandleUpdate(st: State, response: Value, k: Keys): (r: Run)
    ensures response.Null? ==> r == Run(st, true)
    ensures !response.Null? && (IsFailure(response) || IsRequestEcho(response)) ==> r == Run(st, false)
    ensures !response.Null? && !IsFailure(response) && !IsRequestEcho(response) && IsDiscoveryAnswer(response) ==>
      r == Discovery.HandleDiscoveryResponse(st, Get(response, "answer"), k)
    ensures !response.Null? && !IsFailure(response) && !IsRequestEcho(response) && !IsDiscoveryAnswer(response) ==>
      OnlyContexts(st, r.st)
    ensures (!response.Null? && !IsFailure(response) && !IsRequestEcho(response) && !IsDiscoveryAnswer(response) &&
      !IsNotification(response)) ==> r == Run(st, false)
  {
    if response.Null? then Run(st, true)
    else if IsFailure(response) then Run(st, false)
    else if IsRequestEcho(response) then Run(st, false)
    else if IsDiscoveryAnswer(response) then Discovery.HandleDiscoveryResponse(st, Get(response, "answer"), k)
    else if IsNotification(response) then
      var objectList := Get(response, "objectList");
      if !Truthy(objectList) then Run(st, false)
      else if !objectList.value.Arr? then Run(st, true)
      else ApplyItems(st, objectList.value.items, k)
    else Run(st, false)
  }

  // ---------------------------------------------------------------------
  // Routing properties

  /** A change list of entries that all lack a name or parameters changes nothing. */
  lemma {:induction false} IgnoredChangesChangeNothing(st: State, changes: seq<Value>, k: Keys)
    requires forall i :: 0 <= i < |changes| ==> !changes[i].Null? && !Routable(changes[i])
    ensures ApplyChanges(st, changes, k) == Run(st, false)
    decreases |changes|
  {
    if changes != [] {
      assert forall i :: 0 <= i < |changes[1..]| ==> changes[1..][i] == changes[i + 1];
      IgnoredChangesChangeNothing(st, changes[1..], k);
    }
  }

  /** A change for a name that is neither a pump circuit id nor the id of a circuit accessory changes nothing. */
  lemma UnknownIdChangesNothing(st: State, change: Value, k: Keys)
    requires Routable(change)
    requires var objnam := Get(change, OBJ_ID_KEY).value.s;
      objnam !in st.pumpIdToCircuitMap && Uuid(objnam) !in st.accessoryMap
    ensures ApplyChange(st, change, k) == Run(st, false)
  {
  }

  /**
   * A plain circuit update writes only the circuit's status, and only with
   * a truthy STATUS; every other accessory is untouched.
   */
  lemma CircuitUpdate(st: State, objnam: string, params: Value, k: Keys)
    requires objnam !in st.pumpIdToCircuitMap && RoutesToCircuit(st, objnam)
    requires st.accessoryMap[Uuid(objnam)].circuit.value.objectType == CIRCUIT_TYPE
    ensures var r := RouteChange(st, objnam, params, k);
      var c := st.accessoryMap[Uuid(objnam)].circuit.value;
      !r.threw &&
      r.st.accessoryMap[Uuid(objnam)].circuit == Some(c.(status := if Truthy(Get(params, STATUS_KEY)) then Get(params, STATUS_KEY) else c.status)) &&
      forall u :: u in st.accessoryMap && u != Uuid(objnam) ==> r.st.accessoryMap[u] == st.accessoryMap[u]
  {
  }

  /**
   * A body update applies the status and body mappings to the body, then
   * gives the updated body to exactly the heater accessories bound to its
   * id that the heater loop reaches; it throws when a bare heater record is
   * met, and only then.
   */
  lemma BodyUpdateCascades(st: State, objnam: string, params: Value, k: Keys)
    requires objnam !in st.pumpIdToCircuitMap && RoutesToCircuit(st, objnam)
    requires st.accessoryMap[Uuid(objnam)].circuit.value.objectType == BODY_TYPE
    ensures var r := RouteChange(st, objnam, params, k);
      var body := UpdatedBody(UpdatedCircuit(st.accessoryMap[Uuid(objnam)].circuit.value, params), params);
      (r.threw <==> !NoRecords(st.heaters)) &&
      r.st.accessoryMap[Uuid(objnam)].circuit == Some(body) &&
      forall u :: u in st.accessoryMap && u != Uuid(objnam) ==>
        r.st.accessoryMap[u] == if Reached(st.heaters, u) && Matches(st.accessoryMap[u], body)
                                then st.accessoryMap[u].(body := Some(body)) else st.accessoryMap[u]
  {
    var uuid := Uuid(objnam);
    var body := UpdatedBody(UpdatedCircuit(st.accessoryMap[uuid].circuit.value, params), params);
    var s := st.(accessoryMap := st.accessoryMap[uuid := st.accessoryMap[uuid].(circuit := Some(body))]);
    var r := UpdateHeaterStatuses(s, body);
    assert RouteChange(st, objnam, params, k) == r;
    assert r.st.accessoryMap[uuid].circuit == Some(body) by {
      assert s.accessoryMap[uuid].circuit == Some(body);
    }
  }

  /**
   * A pump circuit id updates the pump circuit of the accessory of the
   * circuit it drives: status, then speed type, then speed, each only with
   * a truthy value; the circuit itself is untouched.
   */
  lemma PumpUpdate(st: State, objnam: string, params: Value, k: Keys)
    requires objnam in st.pumpIdToCircuitMap
    requires var u := Uuid(st.pumpIdToCircuitMap[objnam].id);
      u in st.accessoryMap && st.accessoryMap[u].pumpCircuit.Some?
    ensures var u := Uuid(st.pumpIdToCircuitMap[objnam].id);
      var r := RouteChange(st, objnam, params, k);
      var before := st.accessoryMap[u];
      var pc := before.pumpCircuit.value;
      !r.threw && r.st.accessoryMap[u].circuit == before.circuit &&
      r.st.accessoryMap[u].pumpCircuit == Some(UpdatedPump(UpdatedPumpStatus(pc, params), params, k)) &&
      forall v :: v in st.accessoryMap && v != u ==> r.st.accessoryMap[v] == st.accessoryMap[v]
  {
  }

  /** A NotifyList notification carrying one change, as the controller sends it for a parameter that changed. */
  function Notification(objnam: string, params: Value): Value {
    Obj(map["command" := Str(NOTIFY_LIST), "objectList" := Arr([Obj(map[OBJ_ID_KEY := Str(objnam), PARAMS_KEY := params])])])
  }

  /** A notification of one named change with parameters is routed as exactly that change. */
  lemma NotificationRoutes(st: State, objnam: string, params: Value, k: Keys)
    requires objnam != "" && IsTruthy(params)
    ensures HandleUpdate(st, Notification(objnam, params), k) == RouteChange(st, objnam, params, k)
  {
    var change := Obj(map[OBJ_ID_KEY := Str(objnam), PARAMS_KEY := params]);
    var response := Notification(objnam, params);
    assert !IsFailure(response) && !IsRequestEcho(response) && !IsDiscoveryAnswer(response) && IsNotification(response);
    assert Get(response, "objectList") == Some(Arr([change]));
    assert Routable(change);
    var first := ApplyItem(st, change, k);
    assert first == RouteChange(st, objnam, params, k);
    assert [change][1..] == [];
    assert ApplyItems(first.st, [], k) == Run(first.st, false);
  }
}
