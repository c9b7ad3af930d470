# Pentair IntelliCenter bridge: a verified model of the protocol core

This project models the protocol logic of the Homebridge platform plugin for the Pentair IntelliCenter pool controller. The model covers:

- **Line framing.** The socket's `data` handler keeps a pending buffer. It releases the buffer only when a chunk ends in a newline, and it drops the buffer once it grows past `maxBufferSize`.
- **Discovery.**
  - The `GetHardwareDefinition` queries go out one at a time.
  - The answers are folded together with the recursive `mergeResponse` / `mergeResponseArray`.
  - A raw node tree is turned into panel, module, circuit, body, heater and pump records by the `transform*` functions.
  - Accessories are registered for every circuit and for every heater/body pair.
- **Update routing.** `handleUpdate` normalises the `objectList`/`changes` wrappers and routes each change by `objnam`.
  - Pump-circuit ids go through `pumpIdToCircuitMap`.
  - Circuit and body ids go to their circuit accessory.
  - A body's partial update cascades to the heater accessories bound to that body.
- **Numeric conversions.** Pump power level versus RPM or GPM, Fahrenheit versus Celsius, and the quantisation of a HomeKit hue and saturation to an IntelliBrite colour.
- **Outbound requests.** Which `SetParamList` requests the accessories' handlers send, to which object, in which order.

## How it is modelled

- **Values and errors.**
  - Parsed JSON is the `Json.Value` tree: null, booleans, numbers, strings, arrays and objects, with objects as maps.
  - JavaScript numbers are `Numbers.Number`: a real, or NaN.
  - JavaScript truthiness, unary plus, `===` and `Math.round` (`Floor(x + 0.5)`) are written out.
  - A property read that throws a `TypeError` is a `Thrown` result.
  - An operation that can throw returns `Registry.Run(state, threw)`: the effects made before the throw are kept, as they are in the source.
- **Platform state.** It is `Registry.State`:
  - `discoverCommandsSent`, `discoveryBuffer`, `pumpIdToCircuitMap` and `accessoryMap`;
  - `heaters`, a JavaScript `Map` kept as its entries in insertion order;
  - the log of requests sent.
- **Specification and implementation.** The modules `Registry`, `Discovery`, `Routing` and `Framing` define each platform operation as a function on this state. The class `Platform.Platform` holds the same fields and implements the operations statement by statement, with the source's loops. Each method is proved to leave its fields as the matching function says. The one exception is `configureAccessory`: the class and `Registry.ConfigureAccessory` carry the corrected behaviour described under "## Findings", and `Registry.ConfigureAccessoryAsWritten` keeps the code as written.
- **Accessories.** The accessory classes (`CircuitAccessories.CircuitAccessory`, `HeaterAccessories.HeaterAccessory`, `PumpAccessories.PumpAccessory`) send their requests through the platform. Each handler is proved equal to a function stating the requests.
- **Foreign calls.**
  - `hap.uuid.generate` is the injective constructor `Registry.Uuid`.
  - `JSON.parse` is a parameter: a partial function from a line to a value.
  - The protocol names that the source imports but does not define are fields of `Protocol.Keys`, passed in as parameters. These are `DISCOVER_COMMANDS`, the variable-speed pump subtypes, the speed, select and bound keys, and the GPM speed-type text.

Where the code differs from what its own names and comments suggest, the model follows the code:

- **Top-level merge.** `mergeResponse(discoveryBuffer, answer)` on two arrays iterates the answer's indices with `for-in`, so the top-level merge is index-wise, not keyed by `objnam` (`Merge.MergedIndexed`). Only arrays nested inside objects are merged by `objnam`.
- **Pump circuits.** `transformPumps` never fills in a pump's `circuits`. Completing discovery therefore throws as soon as a panel has a variable-speed pump, and `pumpIdToCircuitMap` stays empty. This is proved in `Discovery.CompleteDiscoveryRouting` and `Topology.PanelPumpsHaveNoCircuits`.
- **Repeated discovery.** `discoverCommandsSent` is never reset. Once discovery is started a second time, every answer sends an undefined query and discovery never completes again (`Discovery.DiscoveryOverrun`).
- **The `heatMode` body field.** The `bodyParams` Map lists `heatMode` twice, so it is read from `MODE` only (`Topology.BodyParamsEntries`).
- **A 32 °F reading.** A temperature of exactly 32 °F converts to 0 °C, which is falsy. The current temperature then reads as -1 (`HeaterAccessories.CurrentTemperatureReading`), and a target that rounds to 32 °F reads back as the configured minimum.

## Model

| member | source | states |
|---|---|---|
| Framing.MaxBufferSize | src/platform.ts:71 | the limit is the configured value when truthy, otherwise 1048576 |
| Framing.OnData | src/platform.ts:115-137 | a chunk ending in a newline empties the buffer and handles the lines of buffer plus chunk; any other chunk changes no platform state and is appended, or clears the buffer when it already exceeds the limit; what this promises about lines is stated by `Framing.CompleteChunk`, `Framing.LinesInOrder` and `Framing.ChunkBoundaryInvisible` |
| Framing.HandleLinesAppend | src/platform.ts:119-128 | handling two runs of lines in turn equals handling them concatenated |
| Framing.HandleLinesNonEmpty | src/platform.ts:119-128 | the lines handled are exactly the non-empty ones, in order |
| Framing.SkipsUnparsable | src/platform.ts:121-127 | a line that fails to parse is skipped and the following lines are still handled |
| Framing.CompleteChunk | src/platform.ts:116-129 | a newline-terminated chunk handles the non-empty newline-separated pieces of buffer plus chunk, in order, and leaves the buffer empty |
| Framing.LinesInOrder | src/platform.ts:116-129 | the lines before a newline are handled before the lines after it |
| Framing.ChunkBoundaryInvisible | src/platform.ts:115-137 | a chunk kept in a buffer within its limit is handled as if it had arrived with the next chunk |
| Framing.TwoLinesOneChunk | src/platform.ts:115-137 | worked example: an unparsable line followed by a parsable one in one chunk handles only the second |
| Strings.Split | src/platform.ts:119 | a split always yields at least one piece, the empty string included |
| Strings.JoinSplit | src/platform.ts:119 | joining the pieces of a split with the separator gives back the string |
| Strings.SplitPiecesFree | src/platform.ts:119 | no piece of a split contains the separator |
| Strings.SplitWithoutSeparator | src/platform.ts:119 | a string without the separator splits into itself alone |
| Strings.SplitAround | src/platform.ts:119 | splitting `a + sep + b` gives the pieces of `a` followed by the pieces of `b` |
| Strings.NonEmpty | src/platform.ts:122 | the pieces kept are exactly the non-empty ones |
| Strings.NonEmptyAppend | src/platform.ts:121 | filtering a concatenation filters each part |
| Strings.ToUpperAscii | src/util.ts:100 | upper-casing keeps the length and maps each character |
| Json.Prop | src/util.ts:22 | a property read throws exactly on null and undefined, and otherwise gives the property |
| Json.Upper | src/util.ts:100 | `toUpperCase` through optional chaining: undefined for null and undefined, the upper-cased text for a string, a throw otherwise |
| Numbers.Round | src/circuitAccessory.ts:226 | `Math.round`: the integer within half of the value, halves rounded up |
| Numbers.IntTextRoundTrip | src/circuitAccessory.ts:203 | the decimal text of an integer (as a template literal renders it) reads back with unary plus as that integer |
| Numbers.NumberTextRoundTrip | src/heaterAccessory.ts:190 | every number the model renders reads back as itself |
| Registry.SetHeater | src/platform.ts:189 | `Map.set`: the key then maps to the entry, other keys keep theirs, and a new key is appended after the existing entries |
| Registry.SetHeaterInPlace | src/platform.ts:189 | `Map.set` on a key already present replaces the entry at that key's position and moves no other entry |
| Registry.ConfigureAccessoryAsWritten | src/platform.ts:183-191 | as written: the restored accessory enters `accessoryMap`, and a heater accessory's bare heater record, not the accessory, enters `heaters` by `Map.set` (its place kept when present, appended otherwise); no other field changes |
| Registry.ConfigureAccessory | src/platform.ts:183-191 | (corrected; see "## Findings") the restored accessory enters `accessoryMap`, and a heater accessory itself enters `heaters` by `Map.set` (its place kept when present, appended otherwise); no other field changes |
| Registry.RefreshHeaters | src/platform.ts:263-275 | only `accessoryMap` changes and it keeps its keys; the run throws exactly when a bare heater record is tracked; each heater accessory reached before that record gets the body exactly when its body id matches |
| Registry.UpdateHeaterStatuses | src/platform.ts:263-275 | the same, over every tracked heater in insertion order |
| Registry.UpdateHeaterStatusesIdempotent | src/platform.ts:263-275 | applying the same body twice gives the state of applying it once |
| Registry.SetAccessoryKeepsAccessories | src/platform.ts:189 | tracking an accessory keeps `heaters` free of bare records |
| Registry.RestoredHeaterFollowsBody | src/platform.ts:183-191 | after the intended `configureAccessory`, a restored heater bound to a body follows that body's update without a throw |
| Registry.RestoredHeaterBreaksCascadeAsWritten | src/platform.ts:263-275 | as written: with a restored heater tracked by its bare record, the cascade throws and the heater keeps the old body |
| Topology.EntryIndex | src/util.ts:38-45 | the position found holds the key; when none is found no entry has the key |
| Topology.BodyParamsEntries | src/util.ts:38-45 | the body table iterates LSTTMP, HITMP, LOTMP, HTSRC and MODE into their five fields, `heatMode` from MODE because the duplicate key overwrites the HTMOD entry |
| Topology.PumpParamsEntries | src/util.ts:47-50 | the pump table is the select key to `speedType`, then the speed key to `speed` |
| Topology.CircuitParamsEntries | src/util.ts:34-36 | the circuit table is STATUS to `status` alone |
| Topology.CircuitTableMeaning | src/util.ts:52-58 | applying the circuit table writes the status when STATUS is truthy and nothing else |
| Topology.BodyTableMeaning | src/util.ts:60-66 | applying the body table writes each of the five fields exactly when its key is truthy; every other field is unchanged |
| Topology.PumpTableMeaning | src/util.ts:68-74 | applying the pump table writes speed type and speed exactly when their keys are truthy; every other field is unchanged |
| Topology.PumpStatusTableMeaning | src/util.ts:52-58 | the circuit table applied to a pump circuit writes its status only |
| Topology.ApplyParams | src/util.ts:53-57 | the `forEach` over a table applies its entries in order |
| Topology.UpdateCircuit | src/util.ts:52-58 | `updateCircuit` gives the record with only the status updated, from a truthy STATUS |
| Topology.UpdateBody | src/util.ts:60-66 | `updateBody` gives the record with exactly the five body fields updated from their truthy keys |
| Topology.UpdatePumpStatus | src/util.ts:52-58 | `updateCircuit` on a pump circuit updates only its status |
| Topology.UpdatePump | src/util.ts:68-74 | `updatePump` updates exactly speed type and speed, each from its truthy key |
| Topology.NodeList | src/util.ts:18-21 | a falsy list gives no records, an array gives its items, anything else throws at `filter` |
| Topology.Filter | src/util.ts:22 | the result throws exactly when the test throws on some node; otherwise it holds exactly the accepted nodes |
| Topology.MapAll | src/util.ts:22 | the result throws exactly when the map throws on some node; otherwise it holds every node's image, position by position |
| Topology.Selected | src/util.ts:18-32 | a missing list gives `[]`; a non-array throws; otherwise every record comes from an accepted node and every accepted node gives a record |
| Topology.FilterAppend | src/util.ts:22 | filtering a concatenation concatenates the filtered parts, so input order is kept |
| Topology.MapAllAppend | src/util.ts:22 | mapping a concatenation concatenates the mapped parts |
| Topology.SelectedAppend | src/util.ts:18-166 | the records of a list are those of its front part followed by those of its back part: every transform keeps input order |
| Topology.ParamsOf | src/util.ts:22 | reading `params` throws exactly when the node is null or its params are missing or null |
| Topology.HasType | src/util.ts:22 | the type test holds exactly when OBJTYP equals the type, and throws exactly when the params cannot be read |
| Topology.IsFeature | src/util.ts:94-110 | a node is a feature exactly when OBJTYP is CIRCUIT, FEATR is ON and the subtype does not upper-case to LEGACY; the throwing cases are listed |
| Topology.IsVariableSpeedPump | src/util.ts:112-118 | a node is kept exactly when OBJTYP is PUMP and its upper-cased subtype is a variable-speed one; the throwing cases are listed |
| Topology.FeatureOf | src/util.ts:101-109 | a feature record carries the node's objnam, SNAME, the upper-cased SUBTYP, the CIRCUIT type and no status |
| Topology.BodyOf | src/util.ts:77-92 | a body record carries the node's objnam, SNAME, the upper-cased SUBTYP and the BODY type; temperature, high and low temperature, heater and heat mode come from truthy LSTTMP, HITMP, LOTMP, HTSRC and MODE, and stay undefined otherwise |
| Topology.BodyIdsOf | src/util.ts:27 | no BODY value gives `[]`; a string gives space-free pieces that join back to it; any other value throws |
| Topology.HeaterOf | src/util.ts:18-32 | a heater record carries the node's objnam, SNAME, the upper-cased SUBTYP, the HEATER type and its BODY ids |
| Topology.PumpOf | src/util.ts:119-136 | the pump's id is the first OBJLIST child's objnam and the parent id the node's own; name and upper-cased subtype come from SNAME and SUBTYP; all four bounds are read with unary plus; the speed is the child's speed parameter read with unary plus and the speed type its upper-cased select parameter; no circuits; a missing OBJLIST throws |
| Topology.TransformPanels | src/util.ts:156-166 | anything but an array throws; for an array, every panel record comes from a PANEL node of the list and every PANEL node gives a record |
| Topology.PumpsHaveNoCircuits | src/util.ts:112-137 | no transformed pump has circuits |
| Topology.PanelPumpsHaveNoCircuits | src/util.ts:156-166 | no pump of any transformed panel has circuits |
| Merge.FindMatch | src/util.ts:206 | `find` gives the first target item with the same objnam, or none when no item has it (when it does not throw; see `Merge.FindThrowsExactly`) |
| Merge.FindThrowsExactly | src/util.ts:206 | `find` throws exactly when the target is non-empty and the item to add is null, or when a null target item comes before any match |
| Merge.ArrayThrowsPrefix | src/util.ts:205-212 | a throw at one added item ends the whole `forEach` with a throw |
| Merge.IndexedThrowsPrefix | src/util.ts:216-228 | a throw at one index ends the whole `for-in` loop with a throw |
| Merge.NullTargetItemThrows | src/util.ts:206 | a null item in a nested target array makes the merge throw, where reading it as an item without objnam would append the added item instead |
| Merge.StrictEqualsIsEquality | src/util.ts:206 | `===` on parsed values implies equality |
| Merge.SameObjnamSymmetric | src/util.ts:206 | matching by objnam is symmetric |
| Merge.SameObjnamTransitive | src/util.ts:206 | matching by objnam is transitive |
| Merge.MergedKeepsObjnam | src/util.ts:204-213 | merging an item into its match keeps the match's objnam |
| Merge.MergedArrayKeepsTarget | src/util.ts:204-213 | the array merge never removes target items and keeps each one's objnam in its position |
| Merge.MergedArrayKeyed | src/util.ts:204-213 | for lists with distinct objnams, each target item is merged with the added item of the same objnam in place, and the unmatched added items follow in their order |
| Merge.MatchIsUnique | src/util.ts:206 | in a list with distinct objnams, an item matches at most one position |
| Merge.MergedArrayIntoEmpty | src/util.ts:204-213 | merging into an empty list yields the added items |
| Merge.MergedIndexedIntoEmpty | src/util.ts:215-229 | the index-wise merge of the first answer into an empty array yields the answer |
| Merge.MergedArrayDisjoint | src/util.ts:204-213 | merging lists with disjoint objnams is concatenation |
| Merge.MergedObjects | src/util.ts:215-229 | merging objects keeps the target's keys and adds the addition's; a key only in the target is untouched; two non-empty objects or arrays under one key are merged recursively; otherwise the added value wins |
| Merge.MergeResponse | src/util.ts:215-229 | the method throws exactly when the merge's throw predicate holds; otherwise its merge gives the value the merge defines |
| Merge.MergeFields | src/util.ts:216-228 | the `for-in` loop over an added object's keys throws exactly when some key's merge throws; otherwise it gives the merged object |
| Merge.MergeIndices | src/util.ts:216-228 | the `for-in` loop over an added array's indices throws exactly when some index's merge throws on the array the earlier indices left; otherwise it gives the index-wise merge |
| Merge.MergeKey | src/util.ts:217-227 | one key of the loop: recurse into two non-empty objects, the array merge for two arrays, otherwise assign; it throws exactly when that recursion does |
| Merge.MergeResponseArray | src/util.ts:204-213 | the `forEach` with `find` and `push` throws exactly when `find` reaches a null item (or a null item is looked up in a non-empty array), or the merge into a match throws; otherwise it gives the keyed array merge |
| Discovery.CommandAt | src/platform.ts:307-312 | the command at a position, or undefined past the end |
| Discovery.DiscoverDevicesSendsFirst | src/platform.ts:283-296 | `discoverDevices` records and sends the first discovery command |
| Discovery.DiscoveryAdvances | src/platform.ts:298-313 | while commands remain, an answer whose merge does not throw is buffered and the next command in order is sent; nothing else changes; a merge that throws ends the handler with nothing changed |
| Discovery.DiscoveryCompletes | src/platform.ts:298-316 | once every command has been sent, an answer whose merge does not throw is buffered and the buffer transformed; no more queries are sent; a merge that throws ends the handler |
| Discovery.DiscoveryOverrun | src/platform.ts:307-312 | once more queries than commands have been sent, each answer whose merge does not throw sends an undefined query and discovery never completes; a merge that throws sends nothing |
| Discovery.DiscoveryStalls | src/platform.ts:301-310 | an answer whose merge into the buffer throws sends no query and leaves the queries sent and the buffer as they were, so discovery stops |
| Discovery.SeedingNeverThrows | src/platform.ts:301-305 | the first answer seeds the buffer without a throw, and an undefined answer leaves the buffer as it is |
| Discovery.DiscoverCircuit | src/platform.ts:384-411 | the circuit's accessory is created or refreshed under its UUID with circuit, module, panel and pump circuit; a pump circuit routes its id to the circuit; nothing else changes |
| Discovery.DiscoverHeaterBody | src/platform.ts:353-382 | a heater gets an accessory per known body, tracked in `heaters`; an unknown body id changes nothing |
| Discovery.DiscoverHeater | src/platform.ts:353-382 | every known body id of the heater gets its accessory, tracked in `heaters`, whose context holds this heater and that body; accessories under other UUIDs are unchanged |
| Discovery.DiscoverHeaters | src/platform.ts:348-350 | every heater and known body id of it get an accessory tracked in `heaters` holding a heater and a body; for ids without a '.', the heater with that id and that very body; accessories under other UUIDs are unchanged |
| Discovery.HeaterUuidOfBody | src/platform.ts:358 | for one heater, distinct body ids give distinct accessory UUIDs |
| Discovery.HeaterUuidInjective | src/platform.ts:358 | a heater id and a body id without a '.' are the only pair that generates their UUID |
| Discovery.DiscoverHeatersStep | src/platform.ts:348-350 | what the loop leaves for the later heaters carries over to all heaters once the first heater's pairs are prepended |
| Discovery.HeadHeaterHolds | src/platform.ts:353-382 | `discoverHeater` leaves each pair of the heater and a known body bound to exactly that heater and body, tracked in `heaters` |
| Discovery.HeadHeaterKept | src/platform.ts:348-350 | a later heater overwrites an earlier pair's accessory only under the same UUID, so the earlier pair's heater and body survive when its ids have no '.' |
| Discovery.WalkPumpCircuits | src/platform.ts:326-329 | every pump circuit is recorded under its circuit id, a later one replacing an earlier one; accessories and the routing table are unchanged |
| Discovery.WalkPump | src/platform.ts:324-330 | iterating a pump's missing circuits throws and changes nothing else; accessories and the routing table are unchanged |
| Discovery.WalkPumps | src/platform.ts:324-330 | accessories and the routing table are unchanged; when no pump has circuits, the loop changes nothing and throws exactly when there is a pump |
| Discovery.WalkBodies | src/platform.ts:332-336 | every body gets an accessory under its UUID, holding a circuit with that id, and is recorded under its id; every circuit accessory met before keeps its circuit's id |
| Discovery.WalkFeatures | src/platform.ts:337-346 | every feature gets an accessory under its UUID, holding a circuit with that id; the bodies and heaters met are unchanged |
| Discovery.WalkModule | src/platform.ts:331-342 | the module's bodies and features get accessories, its bodies are recorded and its heaters collected |
| Discovery.WalkModules | src/platform.ts:331-342 | every circuit and heater of every module is registered |
| Discovery.WalkPanel | src/platform.ts:323-347 | without a throw, every circuit of the panel and heater of its modules is registered; without pump circuits the routing table is unchanged and the panel throws exactly when it has a pump |
| Discovery.WalkPanels | src/platform.ts:323-347 | without a throw, every panel's circuits are registered |
| Discovery.WalkPanelsWithoutPumpCircuits | src/platform.ts:323-347 | without pump circuits, the walk leaves the routing table as it was and throws exactly when some panel has a pump |
| Discovery.CompleteDiscovery | src/platform.ts:316-351 | completing discovery leaves the commands sent and the buffer as they were, keeps every accessory and tracked heater, and only appends to the requests sent |
| Discovery.CompleteDiscoveryRouting | src/platform.ts:319-330 | after completing discovery, `pumpIdToCircuitMap` is empty; the run throws exactly when a panel has a pump |
| Discovery.CompleteDiscoveryRegisters | src/platform.ts:316-411 | without a throw, every discovered circuit has an accessory under its UUID whose context holds a circuit with that id; every heater has one per known body, tracked in `heaters` and holding a heater and a body, for ids without a '.' that heater's id and that body's id; restored accessories are kept |
| Discovery.Sent | src/platform.ts:289 | the record of the commands sent, in order |
| Routing.UpdatePumpAccessory | src/platform.ts:244-249 | a missing accessory is a throw; without a pump circuit the update throws exactly when a routed key is truthy; otherwise status, select and speed are each written when truthy |
| Routing.UpdateCircuitAccessory | src/platform.ts:252-261 | a non-body circuit gets its status update only; a body gets the body update, then the heater cascade |
| Routing.RouteChange | src/platform.ts:215-233 | a pump-circuit id goes to the pump update, a CIRCUIT or BODY accessory to the circuit update; anything else changes nothing |
| Routing.ApplyChange | src/platform.ts:213-234 | a null change throws; one without a truthy string objnam and truthy params changes nothing; otherwise it is routed |
| Routing.ApplyChanges | src/platform.ts:212-235 | applying a change list only updates existing accessory contexts: discovery state, routing table, heaters and requests sent are unchanged, and no accessory is added or removed |
| Routing.ApplyItem | src/platform.ts:211-236 | a null item throws; falsy `changes` routes the item itself; an array of changes is applied; anything else throws |
| Routing.ApplyItems | src/platform.ts:206-237 | applying an object list only updates existing accessory contexts |
| Routing.HandleUpdate | src/platform.ts:193-242 | a null response throws; a truthy status other than 200 or an echo of a request command changes nothing; a hardware-definition answer is handed to discovery; any other response only updates accessory contexts, and one that is neither NotifyList nor WriteParamList changes nothing |
| Routing.IgnoredChangesChangeNothing | src/platform.ts:213 | changes lacking objnam or params change nothing |
| Routing.UnknownIdChangesNothing | src/platform.ts:215-233 | a change for an unknown id changes nothing |
| Routing.CircuitUpdate | src/platform.ts:222-233 | a change for a non-body circuit writes only its status, within its accessory |
| Routing.BodyUpdateCascades | src/platform.ts:252-275 | a body change updates the body's accessory, then exactly the heater accessories bound to that body get the new body |
| Routing.PumpUpdate | src/platform.ts:215-220 | a change for a pump-circuit id updates that circuit's accessory's pump circuit only |
| Routing.NotificationRoutes | src/platform.ts:203-237 | a one-change notification is routed as exactly that change |
| Conversions.FahrenheitToCelsius | src/util.ts:168-170 | the Celsius value converts back to the Fahrenheit one |
| Conversions.CelsiusRoundTrip | src/util.ts:168-174 | Celsius to Fahrenheit and back is the identity |
| Conversions.SpeedToPowerLevel | src/circuitAccessory.ts:217-229 | a falsy speed gives 0; otherwise the whole percent nearest the speed's position in the bounds in force (flow for GPM, RPM otherwise); NaN inputs give NaN |
| Conversions.PowerLevelToSpeed | src/circuitAccessory.ts:231-245 | the speed at that percentage of the bounds in force, the nearest whole GPM or the nearest multiple of 50 RPM; NaN bounds give NaN |
| Conversions.RoundToFifty | src/circuitAccessory.ts:242 | the multiple of 50 within 25 of the value |
| Conversions.PowerLevelToSpeedMonotone | src/circuitAccessory.ts:231-245 | a higher power level never asks for a lower speed |
| Conversions.GpmRoundTrip | src/circuitAccessory.ts:217-245 | for a GPM range starting at or above 0 and wider than 100, a whole power level converted to a speed reads back as itself |
| Conversions.GpmExample | src/circuitAccessory.ts:217-245 | worked example: 50% of 0-100 GPM is 50 GPM, which reads back as 50% |
| Conversions.RpmExample | src/circuitAccessory.ts:217-245 | worked example: 50% of 1000-3450 RPM asks for 2250 RPM, which reads back as 51% |
| Colors.IntelliBriteColor | src/util.ts:176-191 | White exactly when the saturation is at most 50; otherwise Red below hue 60, Green below 180, Blue below 270, Magenta beyond |
| Colors.IntelliBriteTestVectors | test/util.spec.ts:4-29 | each of the fourteen test pairs selects its colour |
| Colors.IntelliBriteFixedPoints | test/types.spec.ts:4-11 | a colour's own hue and saturation select that colour |
| Commands.Connection.constructor | src/platform.ts:436-442 | a new connection has sent nothing |
| Commands.Connection.Send | src/platform.ts:436-442 | the request is appended to those sent |
| CircuitAccessories.CircuitStatus | src/circuitAccessory.ts:178-184 | on exactly when the context's circuit reports STATUS ON; a missing status is off |
| CircuitAccessories.SetOnEchoed | src/circuitAccessory.ts:97-108 | once the controller reports back the status `setOn` set, the accessory reads as on exactly when it was turned on |
| CircuitAccessories.CircuitPowerLevel | src/circuitAccessory.ts:217-229 | 0 without a pump circuit or with a falsy speed; otherwise the rounded position of the speed in the bounds in force |
| CircuitAccessories.CircuitSpeed | src/circuitAccessory.ts:231-245 | 0 without a pump circuit; otherwise a whole GPM or a multiple of 50 RPM at that percentage of the range |
| CircuitAccessories.SpeedRequests | src/circuitAccessory.ts:186-211 | nothing without a pump circuit; level 0 sends STATUS OFF alone; any other level sends STATUS ON only when the circuit is off, then the speed to the pump circuit, not the circuit |
| CircuitAccessories.HueColor | src/circuitAccessory.ts:110-116 | an unset saturation selects White, otherwise the IntelliBrite colour of hue and saturation |
| CircuitAccessories.ColorHue | src/circuitAccessory.ts:110-128 | the selected colour is stored, its code sent as ACT to the circuit, and the saturation reset to the colour's |
| CircuitAccessories.ColorSaturation | src/circuitAccessory.ts:130-133 | the accessory's context gets the new saturation and keeps every other field; the other accessories and the rest of the state are unchanged |
| CircuitAccessories.SaturationThenHue | src/circuitAccessory.ts:110-133 | setting saturation then hue selects the colour of the two together |
| CircuitAccessories.ColorHueIdempotent | src/circuitAccessory.ts:110-128 | setting the same hue again leaves the contexts as they were and resends the same request |
| CircuitAccessories.CircuitAccessory.constructor | src/circuitAccessory.ts:32-40 | the accessory is bound to its platform and UUID |
| CircuitAccessories.CircuitAccessory.SetOn | src/circuitAccessory.ts:97-108 | one STATUS request to the circuit, ON for true and OFF for false |
| CircuitAccessories.CircuitAccessory.SetColorHue | src/circuitAccessory.ts:110-128 | the platform state afterwards is what `ColorHue` states |
| CircuitAccessories.CircuitAccessory.SetColorSaturation | src/circuitAccessory.ts:130-133 | the platform state afterwards is what `ColorSaturation` states |
| CircuitAccessories.CircuitAccessory.SetSpeed | src/circuitAccessory.ts:186-211 | the requests sent are those `SpeedRequests` states, in order |
| PumpAccessories.PumpPowerLevel | src/pumpAccessory.ts:82-94 | 0 for a falsy speed; otherwise the rounded position of the speed between the flow bounds for GPM and the RPM bounds otherwise (the accessory's `getSpeed`, `PumpAccessories.PumpAccessory.PowerLevel`, returns it) |
| PumpAccessories.PumpSpeed | src/pumpAccessory.ts:96-106 | a whole GPM or a multiple of 50 RPM at that percentage of the bounds in force |
| PumpAccessories.GpmLevelReadsBack | src/pumpAccessory.ts:61-106 | the speed sent for a whole level reads back as that level on a GPM pump with a wide enough range |
| PumpAccessories.PumpAccessory.constructor | src/pumpAccessory.ts:22-29 | the accessory is bound to its platform and pump record |
| PumpAccessories.PumpAccessory.SetSpeed | src/pumpAccessory.ts:61-76 | exactly one SetParamList request, the converted speed to the pump's id, and no status request |
| HeaterAccessories.CelsiusKeepsValues | src/heaterAccessory.ts:52-77 | with the unit C nothing is converted |
| HeaterAccessories.CurrentTemperatureReading | src/heaterAccessory.ts:70-77 | the current temperature reads as -1 when falsy, as itself in Celsius, and converted in Fahrenheit, except 32 °F reads as -1 |
| HeaterAccessories.Mode | src/heaterAccessory.ts:134-138 | HEAT exactly when the body's heater is this heater, else OFF |
| HeaterAccessories.ModeRequests | src/heaterAccessory.ts:140-170 | OFF sends HEATER 00000 alone; any other mode sends STATUS ON and then HEATER with the heater's id; every request goes to the body |
| HeaterAccessories.TargetValue | src/heaterAccessory.ts:181-198 | in Fahrenheit the whole degree nearest the converted value, in Celsius the value itself |
| HeaterAccessories.TargetTemperatureRoundTrip | src/heaterAccessory.ts:181-206 | once LOTMP is reported back and the accessory is rebuilt, its target is the one asked for: exactly in Celsius, within 5/18 °C in Fahrenheit |
| HeaterAccessories.HeaterAccessory.constructor | src/heaterAccessory.ts:43-77 | in Fahrenheit the limits, truthy targets and truthy current temperature are converted to Celsius; with C they are kept; a falsy current temperature is dropped |
| HeaterAccessories.HeaterAccessory.SetMode | src/heaterAccessory.ts:140-170 | the requests sent are those `ModeRequests` states, in order |
| HeaterAccessories.HeaterAccessory.SetTargetTemperature | src/heaterAccessory.ts:181-198 | exactly one LOTMP request to the body, with the value `TargetValue` states |
| Platform.Platform.constructor | src/platform.ts:61-74 | nothing discovered, nothing sent, an empty buffer, the buffer limit `maxBufferSize \|\| 1048576` |
| Platform.Platform.SendCommand | src/platform.ts:436-442 | the request is appended to those sent; nothing else changes |
| Platform.Platform.ConfigureAccessory | src/platform.ts:183-191 | (corrected; see "## Findings") the fields afterwards are those `Registry.ConfigureAccessory` states |
| Platform.Platform.DiscoverDeviceType | src/platform.ts:287-296 | the command is recorded, then its query sent |
| Platform.Platform.DiscoverDevices | src/platform.ts:283-285 | the first discovery command is recorded and sent |
| Platform.Platform.SubscribeForUpdates | src/platform.ts:413-426 | one RequestParamList for the object's keys is sent |
| Platform.Platform.DiscoverCircuit | src/platform.ts:384-411 | the fields afterwards are those `Discovery.DiscoverCircuit` states |
| Platform.Platform.DiscoverHeaterBody | src/platform.ts:360-381 | the fields afterwards are those `Discovery.DiscoverHeaterBody` states |
| Platform.Platform.DiscoverHeater | src/platform.ts:353-382 | the loop over body ids leaves the fields as `Discovery.DiscoverHeater` states |
| Platform.Platform.DiscoverHeaters | src/platform.ts:348-350 | the loop over heaters leaves the fields as `Discovery.DiscoverHeaters` states |
| Platform.Platform.WalkPumpCircuits | src/platform.ts:326-329 | the loop records every pump circuit, as `Discovery.WalkPumpCircuits` states |
| Platform.Platform.WalkPumps | src/platform.ts:324-330 | the loop over pumps ends as `Discovery.WalkPumps` states |
| Platform.Platform.WalkBodies | src/platform.ts:332-336 | the loop over bodies ends as `Discovery.WalkBodies` states |
| Platform.Platform.WalkFeatures | src/platform.ts:337-346 | the loop over features ends as `Discovery.WalkFeatures` states |
| Platform.Platform.WalkModule | src/platform.ts:331-342 | one module ends as `Discovery.WalkModule` states |
| Platform.Platform.WalkModules | src/platform.ts:331-342 | the loop over modules ends as `Discovery.WalkModules` states |
| Platform.Platform.WalkPanel | src/platform.ts:323-347 | one panel ends as `Discovery.WalkPanel` states |
| Platform.Platform.WalkPanels | src/platform.ts:323-347 | the loop over panels ends as `Discovery.WalkPanels` states |
| Platform.Platform.CompleteDiscovery | src/platform.ts:316-351 | the fields and the throw are those `Discovery.CompleteDiscovery` states |
| Platform.Platform.HandleDiscoveryResponse | src/platform.ts:298-351 | the fields and the throw are those `Discovery.HandleDiscoveryResponse` states |
| Platform.Platform.RefreshHeater | src/platform.ts:264-270 | one matching heater accessory gets the body |
| Platform.Platform.UpdateHeaterStatuses | src/platform.ts:263-275 | the loop over `heaters` ends as `Registry.UpdateHeaterStatuses` states |
| Platform.Platform.UpdatePumpAccessory | src/platform.ts:244-249 | the fields and the throw are those `Routing.UpdatePumpAccessory` states |
| Platform.Platform.UpdateCircuitAccessory | src/platform.ts:252-261 | the fields and the throw are those `Routing.UpdateCircuitAccessory` states |
| Platform.Platform.RouteChange | src/platform.ts:215-233 | the fields and the throw are those `Routing.RouteChange` states |
| Platform.Platform.ApplyChange | src/platform.ts:213-234 | the fields and the throw are those `Routing.ApplyChange` states |
| Platform.Platform.ApplyChanges | src/platform.ts:212-235 | the loop over changes ends as `Routing.ApplyChanges` states |
| Platform.Platform.ApplyItem | src/platform.ts:211-236 | the fields and the throw are those `Routing.ApplyItem` states |
| Platform.Platform.ApplyItems | src/platform.ts:206-237 | the loop over the object list ends as `Routing.ApplyItems` states |
| Platform.Platform.HandleUpdate | src/platform.ts:193-242 | the fields and the throw are those `Routing.HandleUpdate` states |
| Platform.Platform.HandleLine | src/platform.ts:121-127 | one line is parsed and handled, a throw caught, as `Framing.HandleLine` states |
| Platform.Platform.OnData | src/platform.ts:115-137 | the buffer and the fields afterwards are those `Framing.OnData` states |

## Left out

- Transport: the telnet connection, the event handlers other than `data`, the reconnect timer, promises and `await` are left out because they are I/O and timing. The handler's lines are handled one after another, since each `handleUpdate` completes before the next line is read.
- The 10 ms `delay` in `setColorHue` is left out because it is timing; the saturation read after it is the one set before the hue.
- The Homebridge API is left out because it is UI plumbing: registering and updating platform accessories, services and characteristics, `setProps`, `bindThermostat`, `bindStaticValues` and the re-instantiation of an accessory class. A refreshed accessory is its updated context in `accessoryMap`.
- `getColorHue`, `getColorSaturation`, `setBrightness`, `getBrightness`, `setColorTemperature` and `getColorTemperature` are left out because they only read or log HomeKit characteristic values.
- The hues and saturations of the IntelliBrite colours come from a `Color` table that is not part of this model. The tests fix Red (hue 0) and Magenta (hue 300) at saturation 100; White, Green (120) and Blue (240) are the model's choice, consistent with the expected colours of the test vectors.
- The `uuidv4` message ids are not part of the requests, because they are opaque and never compared.
- `JSON.stringify` and all logging are left out because they have no effect on the state.
- Text encoding: chunks are strings of characters. UTF-8 decoding of the socket's buffers is not modelled.
- Floating point: numbers are exact reals or NaN, and Infinity is not modelled. The model raises no rounding error; `Math.round` is `Floor(x + 0.5)`.
- Unary plus is modelled on the inputs the protocol carries. `Numbers.StringToNumber` reads only a plain signed decimal: surrounding whitespace, exponents, `0x` literals and `Infinity` read as NaN. `Json.ToNumber` maps every array and object to NaN, where JavaScript gives 0 for `[]` and the element's number for a one-element array.
- Discovery.DiscoverHeaters and Discovery.CompleteDiscoveryRegisters state the heater and body ids in a heater accessory's context only for ids without a '.'. The UUID is generated from `heater.id + '.' + bodyId`, so with a '.' in an id two pairs can share one accessory, and the later pair wins.
- Conversions.SpeedToPowerLevel, CircuitAccessories.CircuitPowerLevel and PumpAccessories.PumpPowerLevel require a positive range (`RangeOk`). The source divides by the range without a guard, and a zero range would give Infinity or NaN.
- Rendering of numbers in requests: a request carries every number as its value, `Numeric(n)`, and not as text. `Numbers.NumberText` gives the text a template literal makes of an integer or NaN. Only the round-trip lemmas use it (`Numbers.NumberTextRoundTrip`, `HeaterAccessories.TargetTemperatureRoundTrip`). The text of a number that is not whole is not modelled. This matters for a Celsius-mode target temperature that is not a whole number.
- Object key order: objects are maps, so the order of a `for-in` loop over an object's keys is not modelled. No result depends on it except the point at which a throw stops a loop.
- Merge.MergeResponse: merges of mismatched shapes are not modelled as the source does them. An object into an array, an array into an object, or anything into a primitive leaves the target as it is. Partial mutation made before a throw inside a merge is not modelled either.
- Discovery.HandleDiscoveryResponse: when the merge throws (`Merge.MergeThrows`), the model keeps the buffer as it was before the answer. The source has by then merged in place the keys and items that came before the throw. No query follows the throw, so only a later `discoverDevices` after a reconnect would see that partly merged buffer.
- Non-string values under `objnam`, `SNAME` and similar identifier keys are read as the empty text (`Json.IdText`) instead of being carried as they are.
- Routing.Routable: a change whose `objnam` is truthy but not a string is skipped. The source passes it to `hap.uuid.generate`, which would throw and drop the rest of the line.
- Strings.ToUpperAscii: `toUpperCase` is modelled on ASCII letters only. JavaScript also maps other letters, some to longer text (`'ß'` becomes `"SS"`).
- Aliasing: the source shares one record between the discovery walk, `pumpIdToCircuitMap` and the accessory contexts, and mutates it in place. The model copies records by value. A later in-place update of one record is therefore seen only where the model writes it.
- CircuitAccessories.CircuitAccessory.constructor, HeaterAccessories.HeaterAccessory.constructor and CircuitAccessories.ColorHue require the context to hold its circuit (and heater and body). The source reads these without a guard and would throw.
- Rediscovery after a reconnect is left out because the source never resets `discoverCommandsSent` or `discoveryBuffer`. One cycle is modelled faithfully, and the lemma `Discovery.DiscoveryOverrun` states what a second start does.
- The `didFinishLaunching` handler and the `close` handler's reconnect, which call `discoverDevices` after connecting, are left out because they are event wiring. The connection's `ready` handler only logs. `discoverDevices` itself is modelled, and `subscribeForUpdates` is modelled where discovery calls it.
- The platform never creates a `PumpAccessory`. The class is modelled as the source defines it, constructed from a platform and a pump record.

## Findings

| source | as written | input that shows it | evidently intended | confidence | as-written member | corrected member |
|---|---|---|---|---|---|---|
| src/platform.ts:188-190 with src/platform.ts:263-275 | `configureAccessory` stores `accessory.context.heater`, a bare heater record, in `heaters`. `updateHeaterStatuses` then reads `heaterAccessory.context.body?.id` in its log line. Reading `context` on a record that has none throws, which ends the cascade and the rest of the notification. | A heater accessory H1 restored from the cache with body B1 that completed discovery does not register again, either because the heater or its BODY list changed, or because the walk threw before the heater loop at src/platform.ts:348-350 (a variable-speed pump, src/platform.ts:326, as `Discovery.CompleteDiscoveryRouting` shows). Discovery's `heaters.set` at src/platform.ts:377 would otherwise replace the record. While the record is tracked, every body update makes the cascade throw, not only B1's (`Registry.UpdateHeaterStatuses` throws exactly when `heaters` holds a record), and H1 keeps the old body. | Track the restored accessory itself, so a restored heater follows its body's updates like a discovered one. | not executed | Registry.RestoredHeaterBreaksCascadeAsWritten | Registry.RestoredHeaterFollowsBody |
