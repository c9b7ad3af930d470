/**
 * The records the bridge builds from the controller's hardware definition
 * (panels, modules, circuits, bodies, heaters, pumps), the partial field
 * updates applied to them, and the `transform*` functions that build them
 * from a raw node tree.
 */
module Topology {
  import opened Wrappers
  import opened Numbers
  import opened Json
  import opened Protocol
  import opened Conversions
  import Strings

  /**
   * A circuit, feature or body record (Circuit, Body). `subtype` is the
   * record's `type` field: the upper-cased SUBTYP parameter.
   */
  datatype Circuit = Circuit(
    id: string,
    name: Option<Value>,
    objectType: string,
    subtype: Option<string>,
    status: Option<Value>,
    temperature: Option<Value>,
    highTemperature: Option<Value>,
    lowTemperature: Option<Value>,
    heaterId: Option<Value>,
    heatMode: Option<Value>)

  datatype Heater = Heater(id: string, name: Option<Value>, objectType: string, subtype: Option<string>, bodyIds: seq<string>)

  datatype Module = Module(id: string, features: seq<Circuit>, bodies: seq<Circuit>, heaters: seq<Heater>, subtype: Option<string>)

  /** The part of a pump that drives one circuit: `circuitId` names the body or feature it runs for. */
  datatype PumpCircuit = PumpCircuit(
    id: string,
    circuitId: string,
    status: Option<Value>,
    speed: Option<Value>,
    speedType: Option<Value>,
    pump: SpeedBounds)

  /** A variable-speed pump. `circuits` is never filled in by `transformPumps`. */
  datatype Pump = Pump(
    id: string,
    parentId: string,
    name: Option<Value>,
    objectType: string,
    subtype: Option<string>,
    bounds: SpeedBounds,
    speed: Number,
    speedType: Option<string>,
    circuits: Option<seq<PumpCircuit>>)

  datatype Panel = Panel(id: string, modules: seq<Module>, features: seq<Circuit>, pumps: seq<Pump>)

  // ---------------------------------------------------------------------
  // Parameter tables and partial updates

  /** The position of the entry for a key in a Map's entry list. */
  function EntryIndex(entries: seq<(string, string)>, key: string): (k: Option<nat>)
    ensures k.Some? ==> k.value < |entries| && entries[k.value].0 == key
    ensures k.None? ==> forall i :: 0 <= i < |entries| ==> entries[i].0 != key
  {
    if entries == [] then None
    else match EntryIndex(entries[..|entries| - 1], key)
      case Some(i) => Some(i)
      case None => if entries[|entries| - 1].0 == key then Some(|entries| - 1) else None
  }

  /** `new Map(entries)`, as the entries it iterates: a repeated key keeps its first position and takes its last value. */
  function MapOfEntries(entries: seq<(string, string)>): seq<(string, string)> {
    if entries == [] then []
    else
      var m := MapOfEntries(entries[..|entries| - 1]);
      var e := entries[|entries| - 1];
      match EntryIndex(m, e.0)
      case Some(i) => m[i := e]
      case None => m + [e]
  }

  /** `circuitParams`: record field to protocol key. */
  const CIRCUIT_PARAMS := MapOfEntries([("status", STATUS_KEY)])

  /** `bodyParams`, where `heatMode` is listed twice. */
  const BODY_PARAMS := MapOfEntries([
    ("temperature", LAST_TEMP_KEY),
    ("highTemperature", "HITMP"),
    ("lowTemperature", "LOTMP"),
    ("heaterId", "HTSRC"),
    ("heatMode", "HTMOD"),
    ("heatMode", MODE_KEY)])

  /** `pumpParams`. */
  function PumpParams(k: Keys): seq<(string, string)> {
    MapOfEntries([("speedType", k.selectKey), ("speed", k.speedKey)])
  }

  /** The body table holds one entry per field; `heatMode` is read from MODE, the HTMOD entry being overwritten. */
  lemma BodyParamsEntries()
    ensures BODY_PARAMS == [
      ("temperature", "LSTTMP"),
      ("highTemperature", "HITMP"),
      ("lowTemperature", "LOTMP"),
      ("heaterId", "HTSRC"),
      ("heatMode", "MODE")]
  {
    var five := [("temperature", LAST_TEMP_KEY), ("highTemperature", "HITMP"), ("lowTemperature", "LOTMP"), ("heaterId", "HTSRC"), ("heatMode", "HTMOD")];
    var entries := [
      ("temperature", LAST_TEMP_KEY),
      ("highTemperature", "HITMP"),
      ("lowTemperature", "LOTMP"),
      ("heaterId", "HTSRC"),
      ("heatMode", "HTMOD"),
      ("heatMode", MODE_KEY)];
    assert entries[..|entries| - 1] == five;
    DistinctKeysKept(five);
    assert EntryIndex(five, "heatMode") == Some(4) by {
      assert five[..4][..3] == five[..3] && five[..3][..2] == five[..2] && five[..2][..1] == five[..1] && five[..1][..0] == five[..0];
      assert five[..|five| - 1] == five[..4];
    }
    assert BODY_PARAMS == MapOfEntries(entries);
    assert MapOfEntries(entries) == five[4 := ("heatMode", MODE_KEY)];
  }

  /** No two entries share a key. */
  predicate DistinctKeys(entries: seq<(string, string)>) {
    forall i, j :: 0 <= i < j < |entries| ==> entries[i].0 != entries[j].0
  }

  /** Entries with distinct keys are iterated as listed. */
  lemma {:induction false} DistinctKeysKept(entries: seq<(string, string)>)
    requires DistinctKeys(entries)
    ensures MapOfEntries(entries) == entries
    decreases |entries|
  {
    if entries != [] {
      var init, last := entries[..|entries| - 1], entries[|entries| - 1];
      assert DistinctKeys(init);
      DistinctKeysKept(init);
      assert forall i :: 0 <= i < |init| ==> init[i].0 != last.0;
      assert EntryIndex(init, last.0).None?;
    }
  }

  /** The pump table holds its two entries as written. */
  lemma PumpParamsEntries(k: Keys)
    ensures PumpParams(k) == [("speedType", k.selectKey), ("speed", k.speedKey)]
  {
    var entries := [("speedType", k.selectKey), ("speed", k.speedKey)];
    assert entries[..1][..0] == [];
    assert MapOfEntries(entries[..1]) == entries[..1];
    assert EntryIndex(entries[..1], "speed") == None;
  }

  /** `record[field] = value` on a circuit or body record, for the fields the tables name. */
  function SetCircuitField(c: Circuit, field: string, v: Value): Circuit {
    if field == "status" then c.(status := Some(v))
    else if field == "temperature" then c.(temperature := Some(v))
    else if field == "highTemperature" then c.(highTemperature := Some(v))
    else if field == "lowTemperature" then c.(lowTemperature := Some(v))
    else if field == "heaterId" then c.(heaterId := Some(v))
    else if field == "heatMode" then c.(heatMode := Some(v))
    else c
  }

  /** `record[field] = value` on a pump circuit. */
  function SetPumpCircuitField(pc: PumpCircuit, field: string, v: Value): PumpCircuit {
    if field == "status" then pc.(status := Some(v))
    else if field == "speedType" then pc.(speedType := Some(v))
    else if field == "speed" then pc.(speed := Some(v))
    else pc
  }

  /** `table.forEach((key, field) => { if (params[key]) record[field] = params[key]; })`, one entry at a time. */
  function Applied<E>(e: E, table: seq<(string, string)>, params: Value, assign: (E, string, Value) -> E): E {
    if table == [] then e
    else
      var before := Applied(e, table[..|table| - 1], params, assign);
      var (field, key) := table[|table| - 1];
      if Truthy(Get(params, key)) then assign(before, field, Get(params, key).value) else before
  }

  /** The value a field ends with: the parameter if it is truthy, else the old value. */
  function Pick(current: Option<Value>, incoming: Option<Value>): Option<Value> {
    if Truthy(incoming) then incoming else current
  }

  /** The effect of `updateCircuit`, field by field. */
  function UpdatedCircuit(c: Circuit, params: Value): Circuit {
    c.(status := Pick(c.status, Get(params, STATUS_KEY)))
  }

  /** The effect of `updateBody`, field by field. */
  function UpdatedBody(b: Circuit, params: Value): Circuit {
    b.(temperature := Pick(b.temperature, Get(params, LAST_TEMP_KEY)),
       highTemperature := Pick(b.highTemperature, Get(params, "HITMP")),
       lowTemperature := Pick(b.lowTemperature, Get(params, "LOTMP")),
       heaterId := Pick(b.heaterId, Get(params, HEAT_SOURCE_KEY)),
       heatMode := Pick(b.heatMode, Get(params, MODE_KEY)))
  }

  /** The effect of `updateCircuit` applied to a pump circuit. */
  function UpdatedPumpStatus(pc: PumpCircuit, params: Value): PumpCircuit {
    pc.(status := Pick(pc.status, Get(params, STATUS_KEY)))
  }

  /** The effect of `updatePump`, field by field. */
  function UpdatedPump(pc: PumpCircuit, params: Value, k: Keys): PumpCircuit {
    pc.(speedType := Pick(pc.speedType, Get(params, k.selectKey)),
        speed := Pick(pc.speed, Get(params, k.speedKey)))
  }

  /** The loop of `updateCircuit`, `updateBody` and `updatePump`. */
  method ApplyParams<E>(e: E, table: seq<(string, string)>, params: Value, assign: (E, string, Value) -> E) returns (r: E)
    ensures r == Applied(e, table, params, assign)
  {
    r := e;
    for i := 0 to |table|
      invariant r == Applied(e, table[..i], params, assign)
    {
      assert table[..i + 1][..i] == table[..i];
      var (field, key) := table[i];
      var value := Get(params, key);
      if Truthy(value) {
        r := assign(r, field, value.value);
      }
    }
    assert table[..|table|] == table;
  }

  lemma CircuitParamsEntries()
    ensures CIRCUIT_PARAMS == [("status", "STATUS")]
  {
    var e := [("status", STATUS_KEY)];
    assert e[..|e| - 1] == [];
    assert MapOfEntries(e[..|e| - 1]) == [];
    assert EntryIndex([], "status") == None;
  }

  /** Applying the status table writes the status field only. */
  lemma CircuitTableMeaning(c: Circuit, params: Value)
    ensures Applied(c, CIRCUIT_PARAMS, params, SetCircuitField) == UpdatedCircuit(c, params)
  {
    CircuitParamsEntries();
    assert CIRCUIT_PARAMS[..0] == [];
  }

  /** Applying the body table writes exactly the five body fields, heatMode from MODE. */
  lemma BodyTableMeaning(b: Circuit, params: Value)
    ensures Applied(b, BODY_PARAMS, params, SetCircuitField) == UpdatedBody(b, params)
  {
    BodyParamsEntries();
    BodyPrefix(b, params, 5);
    assert BODY_PARAMS[..5] == BODY_PARAMS;
  }

  /** The body after the first `i` entries of the body table. */
  function PartialBody(b: Circuit, params: Value, i: nat): Circuit {
    b.(temperature := if i >= 1 then Pick(b.temperature, Get(params, LAST_TEMP_KEY)) else b.temperature,
       highTemperature := if i >= 2 then Pick(b.highTemperature, Get(params, "HITMP")) else b.highTemperature,
       lowTemperature := if i >= 3 then Pick(b.lowTemperature, Get(params, "LOTMP")) else b.lowTemperature,
       heaterId := if i >= 4 then Pick(b.heaterId, Get(params, HEAT_SOURCE_KEY)) else b.heaterId,
       heatMode := if i >= 5 then Pick(b.heatMode, Get(params, MODE_KEY)) else b.heatMode)
  }

  /** Each entry of the body table writes its own field. */
  lemma {:induction false} BodyPrefix(b: Circuit, params: Value, i: nat)
    requires i <= |BODY_PARAMS|
    ensures Applied(b, BODY_PARAMS[..i], params, SetCircuitField) == PartialBody(b, params, i)
    decreases i
  {
    BodyParamsEntries();
    if i == 0 {
      assert BODY_PARAMS[..0] == [];
    } else {
      BodyPrefix(b, params, i - 1);
      AppliedPrefix(b, BODY_PARAMS, i, params, SetCircuitField);
    }
  }

  /** Applying the first `i` entries of a table: the first `i - 1`, then entry `i - 1`. */
  lemma AppliedPrefix<E>(e: E, table: seq<(string, string)>, i: nat, params: Value, assign: (E, string, Value) -> E)
    requires 0 < i <= |table|
    ensures var before := Applied(e, table[..i - 1], params, assign);
      var key := table[i - 1].1;
      Applied(e, table[..i], params, assign) == if Truthy(Get(params, key)) then assign(before, table[i - 1].0, Get(params, key).value) else before
  {
    assert table[..i][..i - 1] == table[..i - 1];
  }

  /** Applying the pump table writes the speed type and the speed only. */
  lemma PumpTableMeaning(pc: PumpCircuit, params: Value, k: Keys)
    ensures Applied(pc, PumpParams(k), params, SetPumpCircuitField) == UpdatedPump(pc, params, k)
  {
    PumpParamsEntries(k);
    var t := PumpParams(k);
    assert t[..0] == [] && t[..1][..0] == [];
    var r1 := Applied(pc, t[..1], params, SetPumpCircuitField);
    assert t[..1][0] == ("speedType", k.selectKey);
    assert Applied(pc, t[..1][..0], params, SetPumpCircuitField) == pc;
    assert r1 == pc.(speedType := Pick(pc.speedType, Get(params, k.selectKey)));
    assert t[..2] == t && t[..2][..1] == t[..1];
  }

  /** Applying the status table to a pump circuit writes its status only. */
  lemma PumpStatusTableMeaning(pc: PumpCircuit, params: Value)
    ensures Applied(pc, CIRCUIT_PARAMS, params, SetPumpCircuitField) == UpdatedPumpStatus(pc, params)
  {
    CircuitParamsEntries();
    assert CIRCUIT_PARAMS[..0] == [];
  }

  /** `updateCircuit`: only the status is written, and only from a truthy STATUS. */
  method UpdateCircuit(c: Circuit, params: Value) returns (r: Circuit)
    ensures r == UpdatedCircuit(c, params)
  {
    r := ApplyParams(c, CIRCUIT_PARAMS, params, SetCircuitField);
    CircuitTableMeaning(c, params);
  }

  /**
   * `updateBody`: LSTTMP, HITMP, LOTMP, HTSRC and MODE each overwrite their
   * field when truthy; nothing else changes.
   */
  method UpdateBody(b: Circuit, params: Value) returns (r: Circuit)
    ensures r == UpdatedBody(b, params)
  {
    r := ApplyParams(b, BODY_PARAMS, params, SetCircuitField);
    BodyTableMeaning(b, params);
  }

  /** `updateCircuit` on a pump circuit: only the status. */
  method UpdatePumpStatus(pc: PumpCircuit, params: Value) returns (r: PumpCircuit)
    ensures r == UpdatedPumpStatus(pc, params)
  {
    r := ApplyParams(pc, CIRCUIT_PARAMS, params, SetPumpCircuitField);
    PumpStatusTableMeaning(pc, params);
  }

  /** `updatePump`: the speed type from the select key and the speed from the speed key, each when truthy. */
  method UpdatePump(pc: PumpCircuit, params: Value, k: Keys) returns (r: PumpCircuit)
    ensures r == UpdatedPump(pc, params, k)
  {
    r := ApplyParams(pc, PumpParams(k), params, SetPumpCircuitField);
    PumpTableMeaning(pc, params, k);
  }

  // ---------------------------------------------------------------------
  // The transforms from the raw node tree

  /** `if (!list) return []; list.filter(...)`: a falsy list is empty; anything truthy but an array has no `filter` and throws. */
  function NodeList(v: Option<Value>): (r: Result<seq<Value>>)
    ensures !Truthy(v) ==> r == Ok([])
    ensures Truthy(v) && v.value.Arr? ==> r == Ok(v.value.items)
    ensures Truthy(v) && !v.value.Arr? ==> r.Thrown?
  {
    if !Truthy(v) then Ok([])
    else if v.value.Arr? then Ok(v.value.items)
    else Thrown
  }

  /** `list.filter(keep)`: the nodes `keep` accepts, or a throw when `keep` throws on any node. */
  function Filter(nodes: seq<Value>, keep: Value -> Result<bool>): (r: Result<seq<Value>>)
    ensures r.Ok? <==> forall i :: 0 <= i < |nodes| ==> keep(nodes[i]).Ok?
    ensures r.Ok? ==> forall x :: x in r.value <==> x in nodes && keep(x) == Ok(true)
    ensures r.Ok? ==> |r.value| <= |nodes|
  {
    if nodes == [] then Ok([])
    else
      var init, last := nodes[..|nodes| - 1], nodes[|nodes| - 1];
      assert nodes == init + [last];
      match Filter(init, keep)
      case Thrown => Thrown
      case Ok(kept) =>
        match keep(last)
        case Thrown => Thrown
        case Ok(b) => Ok(if b then kept + [last] else kept)
  }

  /** `list.map(f)`: every node's image in order, or a throw when `f` throws on any node. */
  function MapAll<T>(nodes: seq<Value>, f: Value -> Result<T>): (r: Result<seq<T>>)
    ensures r.Ok? <==> forall i :: 0 <= i < |nodes| ==> f(nodes[i]).Ok?
    ensures r.Ok? ==> |r.value| == |nodes| && forall i :: 0 <= i < |nodes| ==> f(nodes[i]) == Ok(r.value[i])
  {
    if nodes == [] then Ok([])
    else
      match MapAll(nodes[..|nodes| - 1], f)
      case Thrown => Thrown
      case Ok(init) =>
        match f(nodes[|nodes| - 1])
        case Thrown => Thrown
        case Ok(y) => Ok(init + [y])
  }

  /** Both parts evaluated without throwing, then concatenated. */
  function Concat<T>(a: Result<seq<T>>, b: Result<seq<T>>): Result<seq<T>> {
    if a.Ok? && b.Ok? then Ok(a.value + b.value) else Thrown
  }

  /**
   * The shape shared by the `transform*` functions over a list: an empty
   * result for a missing list, then the nodes `keep` accepts, each turned
   * into a record by `f`. Every record comes from an accepted node and every
   * accepted node gives a record.
   */
  function Selected<T(==)>(v: Option<Value>, keep: Value -> Result<bool>, f: Value -> Result<T>): (r: Result<seq<T>>)
    ensures !Truthy(v) ==> r == Ok([])
    ensures Truthy(v) && !v.value.Arr? ==> r.Thrown?
    ensures r.Ok? && Truthy(v) ==>
      forall y :: y in r.value ==> exists x :: x in v.value.items && keep(x) == Ok(true) && f(x) == Ok(y)
    ensures r.Ok? && Truthy(v) ==>
      forall x :: x in v.value.items && keep(x) == Ok(true) ==> f(x).Ok? && f(x).value in r.value
  {
    var nodes :- NodeList(v);
    var kept :- Filter(nodes, keep);
    var r := MapAll(kept, f);
    if r.Ok? then
      assert forall y :: y in r.value ==> exists x :: x in kept && f(x) == Ok(y) by {
        forall y | y in r.value ensures exists x :: x in kept && f(x) == Ok(y) {
          var i :| 0 <= i < |r.value| && r.value[i] == y;
          assert kept[i] in kept && f(kept[i]) == Ok(y);
        }
      }
      assert forall x :: x in kept ==> f(x).Ok? && f(x).value in r.value by {
        forall x | x in kept ensures f(x).Ok? && f(x).value in r.value {
          var i :| 0 <= i < |kept| && kept[i] == x;
          assert f(x) == Ok(r.value[i]);
        }
      }
      r
    else r
  }

  /** Filtering a concatenation keeps the order: the accepted nodes of the front part come first. */
  lemma {:induction false} FilterAppend(a: seq<Value>, b: seq<Value>, keep: Value -> Result<bool>)
    ensures Filter(a + b, keep) == Concat(Filter(a, keep), Filter(b, keep))
    decreases |b|
  {
    if b == [] {
      assert a + b == a;
      if Filter(a, keep).Ok? {
        assert Filter(a, keep).value + [] == Filter(a, keep).value;
      }
    } else {
      var init, last := b[..|b| - 1], b[|b| - 1];
      assert (a + b)[..|a + b| - 1] == a + init;
      assert (a + b)[|a + b| - 1] == last;
      FilterAppend(a, init, keep);
      if Filter(a, keep).Ok? && Filter(init, keep).Ok? && keep(last) == Ok(true) {
        assert Filter(a, keep).value + Filter(init, keep).value + [last] == Filter(a, keep).value + (Filter(init, keep).value + [last]);
      }
    }
  }

  /** Mapping a concatenation maps each part. */
  lemma {:induction false} MapAllAppend<T>(a: seq<Value>, b: seq<Value>, f: Value -> Result<T>)
    ensures MapAll(a + b, f) == Concat(MapAll(a, f), MapAll(b, f))
    decreases |b|
  {
    if b == [] {
      assert a + b == a;
      if MapAll(a, f).Ok? {
        assert MapAll(a, f).value + [] == MapAll(a, f).value;
      }
    } else {
      var init, last := b[..|b| - 1], b[|b| - 1];
      assert (a + b)[..|a + b| - 1] == a + init;
      assert (a + b)[|a + b| - 1] == last;
      MapAllAppend(a, init, f);
      if MapAll(a, f).Ok? && MapAll(init, f).Ok? && f(last).Ok? {
        assert MapAll(a, f).value + MapAll(init, f).value + [f(last).value] == MapAll(a, f).value + (MapAll(init, f).value + [f(last).value]);
      }
    }
  }

  /** The records of a list are the records of its front part followed by those of its back part: input order is kept. */
  lemma SelectedAppend<T>(a: seq<Value>, b: seq<Value>, keep: Value -> Result<bool>, f: Value -> Result<T>)
    ensures Selected(Some(Arr(a + b)), keep, f) == Concat(Selected(Some(Arr(a)), keep, f), Selected(Some(Arr(b)), keep, f))
  {
    FilterAppend(a, b, keep);
    SelectedArray(a + b, keep, f);
    SelectedArray(a, keep, f);
    SelectedArray(b, keep, f);
    var fa, fb := Filter(a, keep), Filter(b, keep);
    if fa.Ok? && fb.Ok? {
      MapAllAppend(fa.value, fb.value, f);
    }
  }

  /** On an array, `Selected` is the filter followed by the map. */
  lemma SelectedArray<T>(items: seq<Value>, keep: Value -> Result<bool>, f: Value -> Result<T>)
    ensures Selected(Some(Arr(items)), keep, f) == if Filter(items, keep).Ok? then MapAll(Filter(items, keep).value, f) else Thrown
  {
  }

  /** `node[PARAMS_KEY]`, which the following property read requires to be neither null nor undefined. */
  function ParamsOf(node: Value): (r: Result<Value>)
    ensures r.Ok? <==> !node.Null? && Get(node, PARAMS_KEY).Some? && !Get(node, PARAMS_KEY).value.Null?
    ensures r.Ok? ==> Get(node, PARAMS_KEY) == Some(r.value)
  {
    var p :- Prop(Some(node), PARAMS_KEY);
    if p.None? || p.value.Null? then Thrown else Ok(p.value)
  }

  /** `node[PARAMS_KEY][OBJ_TYPE_KEY] === objectType`. */
  function HasType(node: Value, objectType: string): (r: Result<bool>)
    ensures r.Ok? <==> ParamsOf(node).Ok?
    ensures r == Ok(true) <==> ParamsOf(node).Ok? && Get(ParamsOf(node).value, OBJ_TYPE_KEY) == Some(Str(objectType))
  {
    var p :- ParamsOf(node);
    Ok(Get(p, OBJ_TYPE_KEY) == Some(Str(objectType)))
  }

  /** The upper-cased subtype text, when the SUBTYP parameter is a string. */
  predicate SubtypeIs(p: Value, pred: string -> bool) {
    var sub := Get(p, OBJ_SUBTYPE_KEY);
    sub.Some? && sub.value.Str? && pred(Strings.ToUpperAscii(sub.value.s))
  }

  /** The SUBTYP parameter is present, not null and not a string: upper-casing it throws. */
  predicate SubtypeThrows(p: Value) {
    var sub := Get(p, OBJ_SUBTYPE_KEY);
    sub.Some? && !sub.value.Null? && !sub.value.Str?
  }

  /**
   * The feature filter: OBJTYP is CIRCUIT, FEATR is ON, and the subtype is
   * missing or does not upper-case to LEGACY. The subtype is read only when
   * the first two tests pass.
   */
  function IsFeature(node: Value): (r: Result<bool>)
    ensures r.Thrown? <==> (ParamsOf(node).Thrown? ||
      (var p := ParamsOf(node).value;
       Get(p, OBJ_TYPE_KEY) == Some(Str(CIRCUIT_TYPE)) && Get(p, FEATURE_KEY) == Some(Str(FEATURE_ON)) && SubtypeThrows(p)))
    ensures r == Ok(true) <==> (ParamsOf(node).Ok? &&
      var p := ParamsOf(node).value;
      Get(p, OBJ_TYPE_KEY) == Some(Str(CIRCUIT_TYPE)) && Get(p, FEATURE_KEY) == Some(Str(FEATURE_ON)) &&
      !SubtypeThrows(p) && !SubtypeIs(p, s => s == LEGACY_SUBTYPE))
  {
    var p :- ParamsOf(node);
    if Get(p, OBJ_TYPE_KEY) != Some(Str(CIRCUIT_TYPE)) || Get(p, FEATURE_KEY) != Some(Str(FEATURE_ON)) then Ok(false)
    else
      var sub :- Upper(Get(p, OBJ_SUBTYPE_KEY));
      Ok(sub != Some(LEGACY_SUBTYPE))
  }

  /** The pump filter: OBJTYP is PUMP and the upper-cased subtype is a variable-speed one. */
  function IsVariableSpeedPump(node: Value, k: Keys): (r: Result<bool>)
    ensures r.Thrown? <==> (ParamsOf(node).Thrown? ||
      (Get(ParamsOf(node).value, OBJ_TYPE_KEY) == Some(Str(PUMP_TYPE)) && SubtypeThrows(ParamsOf(node).value)))
    ensures r == Ok(true) <==> (ParamsOf(node).Ok? &&
      Get(ParamsOf(node).value, OBJ_TYPE_KEY) == Some(Str(PUMP_TYPE)) &&
      SubtypeIs(ParamsOf(node).value, s => s in k.variableSpeedSubtypes))
  {
    var p :- ParamsOf(node);
    if Get(p, OBJ_TYPE_KEY) != Some(Str(PUMP_TYPE)) then Ok(false)
    else
      var sub :- Upper(Get(p, OBJ_SUBTYPE_KEY));
      Ok(sub.Some? && sub.value in k.variableSpeedSubtypes)
  }

  predicate IsBodyNode(node: Value) { HasType(node, BODY_TYPE) == Ok(true) }

  function BodyFilter(node: Value): Result<bool> { HasType(node, BODY_TYPE) }

  function HeaterFilter(node: Value): Result<bool> { HasType(node, HEATER_TYPE) }

  function ModuleFilter(node: Value): Result<bool> { HasType(node, MODULE_TYPE) }

  function PanelFilter(node: Value): Result<bool> { HasType(node, PANEL_TYPE) }

  /** A record's identifier, the node's objnam. */
  function IdOf(node: Value): string {
    IdText(Get(node, OBJ_ID_KEY))
  }

  /** A feature record: identifier, name, CIRCUIT type and upper-cased subtype; no status yet. */
  function FeatureOf(node: Value): (r: Result<Circuit>)
    ensures r.Ok? ==> r.value.id == IdOf(node) && r.value.objectType == CIRCUIT_TYPE && r.value.status.None?
    ensures r.Ok? ==> (ParamsOf(node).Ok? && r.value.name == Get(ParamsOf(node).value, OBJ_NAME_KEY) &&
      Upper(Get(ParamsOf(node).value, OBJ_SUBTYPE_KEY)) == Ok(r.value.subtype))
  {
    var p :- ParamsOf(node);
    var sub :- Upper(Get(p, OBJ_SUBTYPE_KEY));
    Ok(Circuit(IdOf(node), Get(p, OBJ_NAME_KEY), CIRCUIT_TYPE, sub, None, None, None, None, None, None))
  }

  /** A body record: like a feature with BODY type, then the body parameters applied as `updateBody` does. */
  function BodyOf(node: Value): (r: Result<Circuit>)
    ensures r.Ok? ==> r.value.id == IdOf(node) && r.value.objectType == BODY_TYPE && r.value.status.None?
    ensures r.Ok? ==> ParamsOf(node).Ok? && r.value.temperature == Pick(None, Get(ParamsOf(node).value, LAST_TEMP_KEY))
    ensures r.Ok? ==> ParamsOf(node).Ok? && r.value.heaterId == Pick(None, Get(ParamsOf(node).value, HEAT_SOURCE_KEY))
    ensures r.Ok? ==> ParamsOf(node).Ok? && r.value.highTemperature == Pick(None, Get(ParamsOf(node).value, "HITMP"))
    ensures r.Ok? ==> ParamsOf(node).Ok? && r.value.lowTemperature == Pick(None, Get(ParamsOf(node).value, LOW_TEMP_KEY))
    ensures r.Ok? ==> ParamsOf(node).Ok? && r.value.heatMode == Pick(None, Get(ParamsOf(node).value, MODE_KEY))
    ensures r.Ok? ==> (ParamsOf(node).Ok? && r.value.name == Get(ParamsOf(node).value, OBJ_NAME_KEY) &&
      Upper(Get(ParamsOf(node).value, OBJ_SUBTYPE_KEY)) == Ok(r.value.subtype))
  {
    var p :- ParamsOf(node);
    var sub :- Upper(Get(p, OBJ_SUBTYPE_KEY));
    Ok(UpdatedBody(Circuit(IdOf(node), Get(p, OBJ_NAME_KEY), BODY_TYPE, sub, None, None, None, None, None, None), p))
  }

  /** `(params[BODY] as string)?.split(' ') || []`: the space-separated body identifiers. */
  function BodyIdsOf(v: Option<Value>): (r: Result<seq<string>>)
    ensures v.None? || v.value.Null? ==> r == Ok([])
    ensures v.Some? && v.value.Str? ==> r.Ok? && |r.value| >= 1 && Strings.Join(r.value, ' ') == v.value.s
    ensures v.Some? && v.value.Str? ==> forall i :: 0 <= i < |r.value| ==> ' ' !in r.value[i]
    ensures v.Some? && !v.value.Null? && !v.value.Str? ==> r.Thrown?
  {
    if v.None? || v.value.Null? then Ok([])
    else if v.value.Str? then
      Strings.JoinSplit(v.value.s, ' ');
      Strings.SplitPiecesFree(v.value.s, ' ');
      Ok(Strings.Split(v.value.s, ' '))
    else Thrown
  }

  /** A heater record with the bodies it serves. */
  function HeaterOf(node: Value): (r: Result<Heater>)
    ensures r.Ok? ==> r.value.id == IdOf(node) && r.value.objectType == HEATER_TYPE
    ensures r.Ok? ==> ParamsOf(node).Ok? && BodyIdsOf(Get(ParamsOf(node).value, BODY_TYPE)) == Ok(r.value.bodyIds)
    ensures r.Ok? ==> (ParamsOf(node).Ok? && r.value.name == Get(ParamsOf(node).value, OBJ_NAME_KEY) &&
      Upper(Get(ParamsOf(node).value, OBJ_SUBTYPE_KEY)) == Ok(r.value.subtype))
  {
    var p :- ParamsOf(node);
    var sub :- Upper(Get(p, OBJ_SUBTYPE_KEY));
    var bodyIds :- BodyIdsOf(Get(p, BODY_TYPE));
    Ok(Heater(IdOf(node), Get(p, OBJ_NAME_KEY), HEATER_TYPE, sub, bodyIds))
  }

  /**
   * A pump record: its identifier is the objnam of the first OBJLIST child,
   * its parent the pump node's own objnam; bounds and speed are read with
   * unary plus, and no pump circuits are filled in.
   */
  function PumpOf(node: Value, k: Keys): (r: Result<Pump>)
    ensures r.Ok? ==> (ParamsOf(node).Ok? &&
      var list := Get(ParamsOf(node).value, OBJ_LIST_KEY);
      list.Some? && First(list.value).Some? && r.value.id == IdOf(First(list.value).value))
    ensures r.Ok? ==> r.value.parentId == IdOf(node) && r.value.objectType == PUMP_TYPE && r.value.circuits.None?
    ensures r.Ok? ==> ParamsOf(node).Ok? && var p := ParamsOf(node).value;
      r.value.bounds.minRpm == ToNumber(Get(p, k.minKey)) && r.value.bounds.maxRpm == ToNumber(Get(p, k.maxKey)) &&
      r.value.bounds.minFlow == ToNumber(Get(p, k.minFlowKey)) && r.value.bounds.maxFlow == ToNumber(Get(p, k.maxFlowKey))
    ensures r.Ok? ==> (ParamsOf(node).Ok? && r.value.name == Get(ParamsOf(node).value, OBJ_NAME_KEY) &&
      Upper(Get(ParamsOf(node).value, OBJ_SUBTYPE_KEY)) == Ok(r.value.subtype))
    ensures r.Ok? ==> (ParamsOf(node).Ok? &&
      var list := Get(ParamsOf(node).value, OBJ_LIST_KEY);
      list.Some? && First(list.value).Some? &&
      var childParams := Get(First(list.value).value, PARAMS_KEY);
      childParams.Some? && !childParams.value.Null? &&
      r.value.speed == ToNumber(Get(childParams.value, k.speedKey)) &&
      Upper(Get(childParams.value, k.selectKey)) == Ok(r.value.speedType))
    ensures ParamsOf(node).Ok? && Get(ParamsOf(node).value, OBJ_LIST_KEY) in {None, Some(Null)} ==> r.Thrown?
  {
    var p :- ParamsOf(node);
    var list := Get(p, OBJ_LIST_KEY);
    if list.None? || list.value.Null? then Thrown
    else
      var child := First(list.value);
      var childId :- Prop(child, OBJ_ID_KEY);
      var childParams := Get(child.value, PARAMS_KEY);
      var speed :- Prop(childParams, k.speedKey);
      var select := Get(childParams.value, k.selectKey);
      var speedType :- Upper(select);
      var sub :- Upper(Get(p, OBJ_SUBTYPE_KEY));
      var bounds := SpeedBounds(
        ToNumber(Get(p, k.minKey)), ToNumber(Get(p, k.maxKey)),
        ToNumber(Get(p, k.minFlowKey)), ToNumber(Get(p, k.maxFlowKey)));
      Ok(Pump(IdText(childId), IdOf(node), Get(p, OBJ_NAME_KEY), PUMP_TYPE, sub, bounds, ToNumber(speed), speedType, None))
  }

  function TransformFeatures(v: Option<Value>): Result<seq<Circuit>> {
    Selected(v, IsFeature, FeatureOf)
  }

  function TransformBodies(v: Option<Value>): Result<seq<Circuit>> {
    Selected(v, BodyFilter, BodyOf)
  }

  function TransformHeaters(v: Option<Value>): Result<seq<Heater>> {
    Selected(v, HeaterFilter, HeaterOf)
  }

  function TransformPumps(v: Option<Value>, k: Keys): Result<seq<Pump>> {
    Selected(v, node => IsVariableSpeedPump(node, k), node => PumpOf(node, k))
  }

  /** A module record: the features, bodies and heaters among its CIRCUITS. */
  function ModuleOf(node: Value): Result<Module> {
    var p :- ParamsOf(node);
    var circuits := Get(p, CIRCUITS_KEY);
    var features :- TransformFeatures(circuits);
    var bodies :- TransformBodies(circuits);
    var heaters :- TransformHeaters(circuits);
    var sub :- Upper(Get(p, OBJ_SUBTYPE_KEY));
    Ok(Module(IdOf(node), features, bodies, heaters, sub))
  }

  function TransformModules(v: Option<Value>): Result<seq<Module>> {
    Selected(v, ModuleFilter, ModuleOf)
  }

  /** A panel record: the modules, the features held directly and the pumps among its OBJLIST. */
  function PanelOf(node: Value, k: Keys): Result<Panel> {
    var p :- ParamsOf(node);
    var list := Get(p, OBJ_LIST_KEY);
    var modules :- TransformModules(list);
    var features :- TransformFeatures(list);
    var pumps :- TransformPumps(list, k);
    Ok(Panel(IdOf(node), modules, features, pumps))
  }

  /** `transformPanels`: unlike the others it has no guard, so anything but an array throws. */
  function TransformPanels(v: Option<Value>, k: Keys): (r: Result<seq<Panel>>)
    ensures v.None? || !v.value.Arr? ==> r.Thrown?
    ensures r.Ok? ==> v.Some? && v.value.Arr?
    ensures r.Ok? ==>
      forall y :: y in r.value ==> exists x :: x in v.value.items && PanelFilter(x) == Ok(true) && PanelOf(x, k) == Ok(y)
    ensures r.Ok? ==>
      forall x :: x in v.value.items && PanelFilter(x) == Ok(true) ==> PanelOf(x, k).Ok? && PanelOf(x, k).value in r.value
  {
    if v.None? || !v.value.Arr? then Thrown
    else Selected(v, PanelFilter, node => PanelOf(node, k))
  }

  /** `transformPumps` never fills in a pump's circuits. */
  lemma PumpsHaveNoCircuits(v: Option<Value>, k: Keys)
    requires TransformPumps(v, k).Ok?
    ensures forall pump :: pump in TransformPumps(v, k).value ==> pump.circuits.None?
  {
    forall pump | pump in TransformPumps(v, k).value
      ensures pump.circuits.None?
    {
      var x :| x in v.value.items && PumpOf(x, k) == Ok(pump);
    }
  }

  /** No pump of a panel record carries circuits. */
  lemma PanelOfPumpsHaveNoCircuits(x: Value, k: Keys, panel: Panel)
    requires PanelOf(x, k) == Ok(panel)
    ensures forall pump :: pump in panel.pumps ==> pump.circuits.None?
  {
    var list := Get(ParamsOf(x).value, OBJ_LIST_KEY);
    assert TransformPumps(list, k) == Ok(panel.pumps);
    PumpsHaveNoCircuits(list, k);
  }

  /** No pump of any transformed panel carries circuits. */
  lemma PanelPumpsHaveNoCircuits(v: Option<Value>, k: Keys)
    requires TransformPanels(v, k).Ok?
    ensures forall panel, pump :: panel in TransformPanels(v, k).value && pump in panel.pumps ==> pump.circuits.None?
  {
    forall panel | panel in TransformPanels(v, k).value
      ensures forall pump :: pump in panel.pumps ==> pump.circuits.None?
    {
      var x :| x in v.value.items && PanelOf(x, k) == Ok(panel);
      PanelOfPumpsHaveNoCircuits(x, k, panel);
    }
  }
}
