/**
 * Values exchanged with the vendor cloud and stored in the poll snapshot,
 * the failure wrappers, and the named constants of the integration.
 */
module Values {

  /** A decoded JSON value as the cloud SDK hands it over. */
  datatype Value =
    | VNone
    | VBool(b: bool)
    | VInt(i: int)
    | VReal(x: real)
    | VStr(s: string)
    | VList(items: seq<Value>)
    | VDict(fields: map<string, Value>)

  /** One device's data points: DP code to value. */
  type DpMap = map<string, Value>

  /** The poll result: device id to that device's data points. */
  type Snapshot = map<string, DpMap>

  /** A decoded response body of the cloud API (a JSON object). */
  type Response = map<string, Value>

  datatype Option<+T> = None | Some(value: T)

  /** The exceptions the core raises, as values. */
  datatype Error =
    | NotConnected                   // the client has no session yet
    | LoginFailed                    // the SDK's login was refused
    | ListDevicesFailed(res: Response)
    | Malformed                      // a response of a shape the code cannot walk (TypeError, KeyError, AttributeError)
    | UpdateFailed(cause: Error)     // a poll cycle that raised

  datatype Result<+T> = Ok(value: T) | Err(error: Error)

  /** The outcome of a call that returns nothing or raises. */
  datatype Outcome = Pass | Fail(error: Error)

  /** Python truthiness of a JSON value. */
  predicate Truthy(v: Value)
    ensures !Truthy(v) <==> v in {VNone, VBool(false), VInt(0), VReal(0.0), VStr(""), VList([]), VDict(map[])}
  {
    match v
    case VNone => false
    case VBool(b) => b
    case VInt(i) => i != 0
    case VReal(x) => x != 0.0
    case VStr(s) => s != ""
    case VList(items) => items != []
    case VDict(fields) => fields != map[]
  }

  /** `d.get(key, default)` on a JSON object. */
  function GetOr(d: map<string, Value>, key: string, default: Value): (v: Value)
    ensures key in d ==> v == d[key]
    ensures key !in d ==> v == default
  {
    if key in d then d[key] else default
  }

  // Device DP codes.
  const DP_SWITCH: string := "switch"
  const DP_MODE: string := "mode"
  const DP_TEMP_SET: string := "temp_set"
  const DP_TEMP_CURRENT: string := "temp_current"
  const DP_UPPER_TEMP: string := "upper_temp"
  const DP_LOWER_TEMP: string := "lower_temp"
  const DP_WORK_STATE: string := "work_state"

  /** Poll interval in seconds. */
  const DEFAULT_SCAN_INTERVAL: nat := 10
  /** The device reports temperatures in tenths of a degree Celsius. */
  const TEMP_SCALE: real := 0.1
}
