/**
 * The IntelliCenter protocol's names: parameter keys, object types, command
 * names and statuses. Names the bridge uses but does not define (the
 * discovery queries, the variable-speed pump subtypes, the pump parameter
 * keys and the GPM speed type) are gathered in `Keys` and left as
 * parameters.
 */
module Protocol {
  const PARAMS_KEY := "params"
  const OBJ_TYPE_KEY := "OBJTYP"
  const OBJ_ID_KEY := "objnam"
  const OBJ_NAME_KEY := "SNAME"
  const OBJ_SUBTYPE_KEY := "SUBTYP"
  const OBJ_LIST_KEY := "OBJLIST"
  const CIRCUITS_KEY := "CIRCUITS"
  const STATUS_KEY := "STATUS"
  const ACT_KEY := "ACT"
  const LAST_TEMP_KEY := "LSTTMP"
  const HEAT_SOURCE_KEY := "HTSRC"
  const HEATER_KEY := "HEATER"
  const MODE_KEY := "MODE"
  const LOW_TEMP_KEY := "LOTMP"
  const FEATURE_KEY := "FEATR"
  const NO_HEATER_ID := "00000"

  /** The FEATR value that marks a circuit as a feature, and the subtype that excludes it. */
  const FEATURE_ON := "ON"
  const LEGACY_SUBTYPE := "LEGACY"

  /** The object types (ObjectType). */
  const CIRCUIT_TYPE := "CIRCUIT"
  const MODULE_TYPE := "MODULE"
  const PANEL_TYPE := "PANEL"
  const BODY_TYPE := "BODY"
  const HEATER_TYPE := "HEATER"
  const PUMP_TYPE := "PUMP"

  /** CircuitTypes: the object types whose updates are routed to a circuit accessory. */
  const CIRCUIT_TYPES: set<string> := {CIRCUIT_TYPE, BODY_TYPE}

  const RESPONSE_OK := "200"
  const STATUS_ON := "ON"
  const STATUS_OFF := "OFF"

  /** The request commands (the bridge's own commands echoed back). */
  const GET_QUERY := "GetQuery"
  const REQUEST_PARAM_LIST := "RequestParamList"
  const SET_PARAM_LIST := "SetParamList"
  const REQUEST_COMMANDS: set<string> := {GET_QUERY, REQUEST_PARAM_LIST, SET_PARAM_LIST}

  /** The response commands. */
  const SEND_QUERY := "SendQuery"
  const NOTIFY_LIST := "NotifyList"
  const WRITE_PARAM_LIST := "WriteParamList"

  const GET_HARDWARE_DEFINITION := "GetHardwareDefinition"

  /** The configured temperature unit that selects Celsius. */
  const CELSIUS := "C"

  /** Protocol names the bridge imports from files that are not part of this model. */
  datatype Keys = Keys(
    discoverCommands: seq<string>,
    variableSpeedSubtypes: set<string>,
    speedKey: string,
    selectKey: string,
    minKey: string,
    maxKey: string,
    minFlowKey: string,
    maxFlowKey: string,
    gpm: string)
}
