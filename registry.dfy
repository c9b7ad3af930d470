/**
 * The state the platform keeps besides its line buffer: the discovery
 * progress, the pump routing table, the accessories by UUID with their
 * contexts, the heater accessories, and the requests sent so far. The
 * functions here are the specification of the platform's state-changing
 * operations; `Platform.Platform` runs them step by step.
 */
module Registry {
  import opened Wrappers
  import opened Json
  import opened Colors
  import opened Topology
  import opened Commands

  /** `hap.uuid.generate(name)`: distinct names give distinct UUIDs. */
  datatype Uuid = Uuid(name: string)

  /**
   * An accessory's context: what discovery and the handlers store on it.
   * `circuitModule` is the context's `module` entry (None for null).
   */
  datatype Context = Context(
    circuit: Option<Circuit>,
    circuitModule: Option<Module>,
    panel: Option<Panel>,
    pumpCircuit: Option<PumpCircuit>,
    body: Option<Circuit>,
    heater: Option<Heater>,
    color: Option<Color>,
    saturation: Option<real>)

  /** The context of a newly created accessory. */
  const EMPTY_CONTEXT := Context(None, None, None, None, None, None, None, None)

  /**
   * An entry of the `heaters` map: the accessory registered under the same
   * UUID, or, as cached accessories are restored, the bare heater record
   * taken from the accessory's context.
   */
  datatype HeaterEntry = Accessory | HeaterRecord(heater: Heater)

  /**
   * The `heaters` map as a list of entries in insertion order, the order in
   * which a JavaScript `Map` is iterated.
   */
  type HeaterEntries = seq<(Uuid, HeaterEntry)>

  /** `heaters.get(uuid)`. */
  function HeaterAt(entries: HeaterEntries, uuid: Uuid): Option<HeaterEntry>
    decreases |entries|
  {
    if entries == [] then None
    else if entries[0].0 == uuid then Some(entries[0].1)
    else HeaterAt(entries[1..], uuid)
  }

  /** `heaters.set(uuid, entry)`: a known key keeps its place, a new one goes last. */
  function SetHeater(entries: HeaterEntries, uuid: Uuid, entry: HeaterEntry): (r: HeaterEntries)
    ensures HeaterAt(r, uuid) == Some(entry)
    ensures forall v :: v != uuid ==> HeaterAt(r, v) == HeaterAt(entries, v)
    ensures HeaterAt(entries, uuid).None? ==> r == entries + [(uuid, entry)]
    decreases |entries|
  {
    if entries == [] then [(uuid, entry)]
    else if entries[0].0 == uuid then [(uuid, entry)] + entries[1..]
    else [entries[0]] + SetHeater(entries[1..], uuid, entry)
  }

  /** `heaters.set` on a key already present replaces the entry where the key first occurs and moves nothing. */
  lemma {:induction false} SetHeaterInPlace(entries: HeaterEntries, uuid: Uuid, entry: HeaterEntry, i: nat)
    requires i < |entries| && entries[i].0 == uuid
    requires forall j :: 0 <= j < i ==> entries[j].0 != uuid
    ensures SetHeater(entries, uuid, entry) == entries[i := (uuid, entry)]
    decreases i
  {
    if i > 0 {
      SetHeaterInPlace(entries[1..], uuid, entry, i - 1);
      assert entries[i := (uuid, entry)] == [entries[0]] + entries[1..][i - 1 := (uuid, entry)];
    }
  }

  datatype State = State(
    discoverCommandsSent: seq<Option<string>>,
    discoveryBuffer: Option<Value>,
    pumpIdToCircuitMap: map<string, Circuit>,
    accessoryMap: map<Uuid, Context>,
    heaters: HeaterEntries,
    sent: seq<Request>)

  /** The state after an operation, and whether it ended by throwing (the effects before the throw are kept). */
  datatype Run = Run(st: State, threw: bool)

  /** The state of a platform just constructed. */
  const INITIAL := State([], None, map[], map[], [], [])

  /** `sendCommandNoWait`. */
  function Send(st: State, r: Request): State {
    st.(sent := st.sent + [r])
  }

  // ---------------------------------------------------------------------
  // Restoring cached accessories

  /**
   * `configureAccessory` as written: the accessory is tracked, and for a
   * heater accessory the heater record from its context, not the accessory
   * itself, is put in `heaters`.
   */
  function ConfigureAccessoryAsWritten(st: State, uuid: Uuid, cached: Context): (s: State)
    ensures s.accessoryMap == st.accessoryMap[uuid := cached]
    ensures cached.heater.Some? ==> HeaterAt(s.heaters, uuid) == Some(HeaterRecord(cached.heater.value))
    ensures forall v :: v != uuid ==> HeaterAt(s.heaters, v) == HeaterAt(st.heaters, v)
    ensures cached.heater.None? ==> s.heaters == st.heaters
    ensures cached.heater.Some? ==> s.heaters == SetHeater(st.heaters, uuid, HeaterRecord(cached.heater.value))
    ensures s == st.(accessoryMap := s.accessoryMap, heaters := s.heaters)
  {
    st.(accessoryMap := st.accessoryMap[uuid := cached],
        heaters := if cached.heater.Some? then SetHeater(st.heaters, uuid, HeaterRecord(cached.heater.value)) else st.heaters)
  }

  /** `configureAccessory` as evidently intended: a restored heater accessory is itself tracked as a heater. */
  function ConfigureAccessory(st: State, uuid: Uuid, cached: Context): (s: State)
    ensures s.accessoryMap == st.accessoryMap[uuid := cached]
    ensures cached.heater.Some? ==> HeaterAt(s.heaters, uuid) == Some(Accessory)
    ensures forall v :: v != uuid ==> HeaterAt(s.heaters, v) == HeaterAt(st.heaters, v)
    ensures cached.heater.None? ==> s.heaters == st.heaters
    ensures cached.heater.Some? ==> s.heaters == SetHeater(st.heaters, uuid, Accessory)
    ensures s == st.(accessoryMap := s.accessoryMap, heaters := s.heaters)
  {
    st.(accessoryMap := st.accessoryMap[uuid := cached],
        heaters := if cached.heater.Some? then SetHeater(st.heaters, uuid, Accessory) else st.heaters)
  }

  // ---------------------------------------------------------------------
  // The heater cascade

  /** `heaterAccessory.context?.body?.id === body.id` for an accessory's context. */
  predicate Matches(context: Context, body: Circuit) {
    context.body.Some? && context.body.value.id == body.id
  }

  /** The position of the first bare heater record, or the length when there is none. */
  function FirstRecord(entries: HeaterEntries): (n: nat)
    ensures n <= |entries|
    ensures forall i :: 0 <= i < n ==> entries[i].1.Accessory?
    ensures n < |entries| ==> entries[n].1.HeaterRecord?
    decreases |entries|
  {
    if entries == [] || entries[0].1.HeaterRecord? then 0 else 1 + FirstRecord(entries[1..])
  }

  /** The heater accessory `uuid` is reached by the cascade before any bare record. */
  predicate Reached(entries: HeaterEntries, uuid: Uuid) {
    exists i :: 0 <= i < FirstRecord(entries) && entries[i].0 == uuid
  }

  /** One heater accessory: refreshed with the body when bound to its id. */
  function RefreshOne(st: State, uuid: Uuid, body: Circuit): State {
    if uuid in st.accessoryMap && Matches(st.accessoryMap[uuid], body)
    then st.(accessoryMap := st.accessoryMap[uuid := st.accessoryMap[uuid].(body := Some(body))])
    else st
  }

  /** Past an accessory entry, the entries reached are that one and those reached from the next. */
  lemma ReachedStep(entries: HeaterEntries, u: Uuid)
    requires entries != [] && entries[0].1.Accessory?
    ensures Reached(entries, u) <==> u == entries[0].0 || Reached(entries[1..], u)
  {
    if Reached(entries[1..], u) {
      var i :| 0 <= i < FirstRecord(entries[1..]) && entries[1..][i].0 == u;
      assert entries[i + 1].0 == u;
    }
    if Reached(entries, u) && u != entries[0].0 {
      var i :| 0 <= i < FirstRecord(entries) && entries[i].0 == u;
      assert entries[1..][i - 1].0 == u;
    }
    if u == entries[0].0 {
      assert 0 < FirstRecord(entries);
    }
  }

  /**
   * The `forEach` of `updateHeaterStatuses` from one entry on. A bare heater
   * record has no context, so the log message of the non-matching branch
   * throws on it and the loop stops there.
   */
  function RefreshHeaters(st: State, entries: HeaterEntries, body: Circuit): (r: Run)
    ensures r.st == st.(accessoryMap := r.st.accessoryMap)
    ensures r.st.accessoryMap.Keys == st.accessoryMap.Keys
    ensures r.threw <==> FirstRecord(entries) < |entries|
    ensures forall u :: u in st.accessoryMap ==>
      r.st.accessoryMap[u] == if Reached(entries, u) && Matches(st.accessoryMap[u], body)
                              then st.accessoryMap[u].(body := Some(body)) else st.accessoryMap[u]
    decreases |entries|
  {
    if entries == [] then Run(st, false)
    else if entries[0].1.HeaterRecord? then Run(st, true)
    else
      var next := RefreshOne(st, entries[0].0, body);
      var r := RefreshHeaters(next, entries[1..], body);
      assert forall u :: u in st.accessoryMap ==>
        r.st.accessoryMap[u] == if Reached(entries, u) && Matches(st.accessoryMap[u], body)
                                then st.accessoryMap[u].(body := Some(body)) else st.accessoryMap[u]
      by {
        forall u | u in st.accessoryMap
          ensures r.st.accessoryMap[u] == if Reached(entries, u) && Matches(st.accessoryMap[u], body)
                                          then st.accessoryMap[u].(body := Some(body)) else st.accessoryMap[u]
        {
          ReachedStep(entries, u);
        }
      }
      r
  }

  /**
   * `updateHeaterStatuses`: in insertion order, every heater accessory bound
   * to this body's id gets the new body, until a bare heater record stops the
   * loop with a throw; nothing else changes.
   */
  function UpdateHeaterStatuses(st: State, body: Circuit): (r: Run)
    ensures r.st == st.(accessoryMap := r.st.accessoryMap)
    ensures r.st.accessoryMap.Keys == st.accessoryMap.Keys
    ensures r.threw <==> !NoRecords(st.heaters)
    ensures forall u :: u in st.accessoryMap ==>
      r.st.accessoryMap[u] == if Reached(st.heaters, u) && Matches(st.accessoryMap[u], body)
                              then st.accessoryMap[u].(body := Some(body)) else st.accessoryMap[u]
  {
    RefreshHeaters(st, st.heaters, body)
  }

  /** No entry of `heaters` is a bare heater record. */
  predicate NoRecords(entries: HeaterEntries) {
    forall i :: 0 <= i < |entries| ==> entries[i].1.Accessory?
  }

  /** Without bare records every tracked heater is reached. */
  lemma {:induction false} AllReached(entries: HeaterEntries, uuid: Uuid)
    requires NoRecords(entries)
    ensures Reached(entries, uuid) <==> HeaterAt(entries, uuid).Some?
    decreases |entries|
  {
    if entries != [] {
      AllReached(entries[1..], uuid);
      assert FirstRecord(entries) == 1 + FirstRecord(entries[1..]);
      if Reached(entries[1..], uuid) {
        var i :| 0 <= i < FirstRecord(entries[1..]) && entries[1..][i].0 == uuid;
        assert entries[i + 1].0 == uuid;
      }
      if Reached(entries, uuid) && entries[0].0 != uuid {
        var i :| 0 <= i < FirstRecord(entries) && entries[i].0 == uuid;
        assert entries[1..][i - 1].0 == uuid;
      }
    }
  }

  /** Tracking an accessory keeps `heaters` free of bare records. */
  lemma {:induction false} SetAccessoryKeepsAccessories(entries: HeaterEntries, uuid: Uuid)
    requires NoRecords(entries)
    ensures NoRecords(SetHeater(entries, uuid, Accessory))
    decreases |entries|
  {
    if entries == [] {
    } else if entries[0].0 == uuid {
      var r := [(uuid, Accessory)] + entries[1..];
      assert SetHeater(entries, uuid, Accessory) == r;
      assert forall i :: 1 <= i < |r| ==> r[i] == entries[i];
    } else {
      assert forall i :: 0 <= i < |entries[1..]| ==> entries[1..][i] == entries[i + 1];
      SetAccessoryKeepsAccessories(entries[1..], uuid);
      var rest := SetHeater(entries[1..], uuid, Accessory);
      var r := [entries[0]] + rest;
      assert SetHeater(entries, uuid, Accessory) == r;
      forall i | 0 <= i < |r|
        ensures r[i].1.Accessory?
      {
        if i == 0 {
          assert r[0] == entries[0];
        } else {
          assert r[i] == rest[i - 1];
        }
      }
    }
  }

  /** Refreshing heaters twice with the same body is refreshing them once. */
  lemma UpdateHeaterStatusesIdempotent(st: State, body: Circuit)
    ensures UpdateHeaterStatuses(UpdateHeaterStatuses(st, body).st, body) == UpdateHeaterStatuses(st, body)
  {
    var once := UpdateHeaterStatuses(st, body);
    var twice := UpdateHeaterStatuses(once.st, body);
    forall u | u in st.accessoryMap
      ensures twice.st.accessoryMap[u] == once.st.accessoryMap[u]
    {
    }
    assert twice.st.accessoryMap == once.st.accessoryMap;
  }

  /**
   * A restored heater accessory, tracked as intended, follows the updates of
   * its body, as long as nothing else in `heaters` is a bare record.
   */
  lemma RestoredHeaterFollowsBody(st: State, uuid: Uuid, cached: Context, body: Circuit)
    requires cached.heater.Some? && Matches(cached, body)
    requires NoRecords(st.heaters)
    ensures var r := UpdateHeaterStatuses(ConfigureAccessory(st, uuid, cached), body);
      !r.threw && r.st.accessoryMap[uuid] == cached.(body := Some(body))
  {
    var s := ConfigureAccessory(st, uuid, cached);
    SetAccessoryKeepsAccessories(st.heaters, uuid);
    AllReached(s.heaters, uuid);
  }

  /**
   * As written, a restored heater accessory breaks the cascade: its `heaters`
   * entry is the heater record, which has no context, so refreshing heaters
   * for its own body throws and the body never reaches it.
   */
  lemma RestoredHeaterBreaksCascadeAsWritten()
    ensures
      var heater := Heater("H1", None, "HEATER", None, ["B1"]);
      var before := Circuit("B1", None, "BODY", None, None, Some(Str("70")), None, None, None, None);
      var updated := before.(temperature := Some(Str("75")));
      var cached := EMPTY_CONTEXT.(body := Some(before), heater := Some(heater));
      var uuid := Uuid("H1.B1");
      var r := UpdateHeaterStatuses(ConfigureAccessoryAsWritten(INITIAL, uuid, cached), updated);
      r.threw && r.st.accessoryMap[uuid].body == Some(before)
  {
    var heater := Heater("H1", None, "HEATER", None, ["B1"]);
    var cached := EMPTY_CONTEXT.(body := Some(Circuit("B1", None, "BODY", None, None, Some(Str("70")), None, None, None, None)), heater := Some(heater));
    var s := ConfigureAccessoryAsWritten(INITIAL, Uuid("H1.B1"), cached);
    assert s.heaters == [(Uuid("H1.B1"), HeaterRecord(heater))];
    assert FirstRecord(s.heaters) == 0;
  }
}
