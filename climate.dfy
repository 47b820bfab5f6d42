/**
 * The climate entity: the readings it derives from one device's data points
 * (temperatures, bounds, HVAC mode and action, presets) and the three
 * setters that turn a user request into a command batch.
 */
module Climate {
  import opened Values
  import opened Text
  import Api
  import Coordinator

  // ---------------------------------------------------------------------
  // Scaling between device tenths and degrees Celsius
  // ---------------------------------------------------------------------

  /** `float(v)` on the JSON values a DP can hold; None where it raises. */
  function ToFloat(v: Value): (r: Option<real>)
    ensures v.VNone? || v.VList? || v.VDict? ==> r == None
    ensures v.VBool? ==> r == Some(if v.b then 1.0 else 0.0)
    ensures v.VInt? ==> r == Some(v.i as real)
    ensures v.VReal? ==> r == Some(v.x)
    ensures v.VStr? ==> r == ParseDecimal(v.s)
  {
    match v
    case VBool(b) => Some(if b then 1.0 else 0.0)
    case VInt(i) => Some(i as real)
    case VReal(x) => Some(x)
    case VStr(s) => ParseDecimal(s)
    case _ => None
  }

  /** Device tenths to degrees: absent or unconvertible values give None. */
  function ScaleFromDev(v: Value): (r: Option<real>)
    ensures v == VNone ==> r == None
    ensures v.VList? || v.VDict? ==> r == None
    ensures v.VInt? ==> r == Some(v.i as real / 10.0)
    ensures v.VReal? ==> r == Some(v.x / 10.0)
    ensures v.VBool? ==> r == Some(if v.b then 0.1 else 0.0)
    ensures v.VStr? && (forall i :: 0 <= i < |v.s| ==> !IsDigit(v.s[i])) ==> r == None
    ensures v.VStr? && ParseDecimal(v.s).None? ==> r == None
    ensures v.VStr? && ParseDecimal(v.s).Some? ==> r == Some(ParseDecimal(v.s).value / 10.0)
  {
    if v == VNone then None
    else
      match ToFloat(v)
      case Some(x) => Some(x * TEMP_SCALE)
      case None => None
  }

  /** A DP holding a decimal string of tenths, such as "215", reads as degrees, here 21.5. */
  lemma NumeralStringScales(ds: string)
    requires ds != [] && AllDigits(ds)
    ensures ScaleFromDev(VStr(ds)) == Some(DigitsValue(ds) as real / 10.0)
  {
    ParseNatural(ds);
  }

  /** A negative decimal string of tenths reads as negative degrees. */
  lemma NegativeStringScales(ds: string)
    requires ds != [] && AllDigits(ds)
    ensures ScaleFromDev(VStr("-" + ds)) == Some(-(DigitsValue(ds) as real) / 10.0)
  {
    ParseNegative(ds);
  }

  /** A string with two decimal points, such as "1.2.3", is no temperature. */
  lemma TwoPointStringUnknown()
    ensures ScaleFromDev(VStr("1.2.3")) == None
  {
    TwoPointsRejected("1.2.3", 1, 3);
  }

  /** Python's `round` on a number: the nearest integer, ties to the even one. */
  function RoundHalfEven(x: real): (n: int)
    ensures x - 0.5 <= n as real <= x + 0.5
    ensures (n as real == x - 0.5 || n as real == x + 0.5) ==> n % 2 == 0
  {
    var f := x.Floor;
    var d := x - f as real;
    if d < 0.5 then f
    else if d > 0.5 then f + 1
    else if f % 2 == 0 then f
    else f + 1
  }

  /** Nearest-with-ties-to-even determines the rounded value. */
  lemma RoundHalfEvenUnique(x: real, m: int)
    requires x - 0.5 <= m as real <= x + 0.5
    requires (m as real == x - 0.5 || m as real == x + 0.5) ==> m % 2 == 0
    ensures m == RoundHalfEven(x)
  {
  }

  /** Degrees to device tenths. */
  function ScaleToDev(c: real): (n: int)
    ensures c - 0.05 <= n as real / 10.0 <= c + 0.05
  {
    RoundHalfEven(c / TEMP_SCALE)
  }

  /** Every device value in tenths survives the trip to degrees and back. */
  lemma ScaleRoundTrip(n: int)
    ensures ScaleFromDev(VInt(n)).Some?
    ensures ScaleToDev(ScaleFromDev(VInt(n)).value) == n
  {
    RoundHalfEvenUnique(n as real, n);
  }

  /** Degrees sent to the device read back within half a tenth. */
  lemma ScaleBackWithinResolution(c: real)
    ensures ScaleFromDev(VInt(ScaleToDev(c))).Some?
    ensures c - 0.05 <= ScaleFromDev(VInt(ScaleToDev(c))).value <= c + 0.05
  {
  }

  // ---------------------------------------------------------------------
  // Reading the snapshot
  // ---------------------------------------------------------------------

  /** `_status`: the device's data points, empty when the device is not in the snapshot. */
  function StatusOf(snapshot: Snapshot, deviceId: string): (dp: DpMap)
    ensures deviceId in snapshot ==> dp == snapshot[deviceId]
    ensures deviceId !in snapshot ==> dp == map[]
  {
    if deviceId in snapshot then snapshot[deviceId] else map[]
  }

  /** `_get` with the default None. */
  function Get(dp: DpMap, code: string): (v: Value)
    ensures code in dp ==> v == dp[code]
    ensures code !in dp ==> v == VNone
  {
    GetOr(dp, code, VNone)
  }

  /** `_bool`: only a real boolean reads as one. */
  function BoolDp(dp: DpMap, code: string): (r: Option<bool>)
    ensures r.Some? <==> Get(dp, code).VBool?
    ensures r.Some? ==> r.value == Get(dp, code).b
  {
    match Get(dp, code)
    case VBool(b) => Some(b)
    case _ => None
  }

  /** `current_temperature`: unknown when the DP is absent or not a number. */
  function CurrentTemperature(dp: DpMap): (r: Option<real>)
    ensures DP_TEMP_CURRENT !in dp ==> r == None
    ensures Get(dp, DP_TEMP_CURRENT).VInt? ==> r == Some(Get(dp, DP_TEMP_CURRENT).i as real / 10.0)
  {
    ScaleFromDev(Get(dp, DP_TEMP_CURRENT))
  }

  /** `target_temperature`: unknown when the DP is absent or not a number. */
  function TargetTemperature(dp: DpMap): (r: Option<real>)
    ensures DP_TEMP_SET !in dp ==> r == None
    ensures Get(dp, DP_TEMP_SET).VInt? ==> r == Some(Get(dp, DP_TEMP_SET).i as real / 10.0)
  {
    ScaleFromDev(Get(dp, DP_TEMP_SET))
  }

  const ATTR_MIN_TEMP: real := 5.0
  const ATTR_MAX_TEMP: real := 30.0

  /** `scaled or fallback`: a missing, unconvertible or zero bound gives the fallback. */
  function BoundOr(scaled: Option<real>, fallback: real): (r: real)
    ensures scaled.Some? && scaled.value != 0.0 ==> r == scaled.value
    ensures scaled.None? || scaled.value == 0.0 ==> r == fallback
  {
    if scaled.Some? && scaled.value != 0.0 then scaled.value else fallback
  }

  function MinTemp(dp: DpMap): (r: real)
    ensures r != 0.0
    ensures ScaleFromDev(Get(dp, DP_LOWER_TEMP)).Some? && ScaleFromDev(Get(dp, DP_LOWER_TEMP)).value != 0.0 ==>
      r == ScaleFromDev(Get(dp, DP_LOWER_TEMP)).value
    ensures ScaleFromDev(Get(dp, DP_LOWER_TEMP)).None? ==> r == ATTR_MIN_TEMP
    ensures r == ATTR_MIN_TEMP || Some(r) == ScaleFromDev(Get(dp, DP_LOWER_TEMP))
    ensures ScaleFromDev(Get(dp, DP_LOWER_TEMP)) == Some(0.0) ==> r == ATTR_MIN_TEMP
  {
    BoundOr(ScaleFromDev(Get(dp, DP_LOWER_TEMP)), ATTR_MIN_TEMP)
  }

  function MaxTemp(dp: DpMap): (r: real)
    ensures r != 0.0
    ensures ScaleFromDev(Get(dp, DP_UPPER_TEMP)).Some? && ScaleFromDev(Get(dp, DP_UPPER_TEMP)).value != 0.0 ==>
      r == ScaleFromDev(Get(dp, DP_UPPER_TEMP)).value
    ensures ScaleFromDev(Get(dp, DP_UPPER_TEMP)).None? ==> r == ATTR_MAX_TEMP
    ensures r == ATTR_MAX_TEMP || Some(r) == ScaleFromDev(Get(dp, DP_UPPER_TEMP))
    ensures ScaleFromDev(Get(dp, DP_UPPER_TEMP)) == Some(0.0) ==> r == ATTR_MAX_TEMP
  {
    BoundOr(ScaleFromDev(Get(dp, DP_UPPER_TEMP)), ATTR_MAX_TEMP)
  }

  /** The host framework's HVAC modes. */
  datatype HvacMode = Off | Heat | Cool | HeatCool | Auto | Dry | FanOnly

  /** What the device is doing: the strings "off", "heating" and "idle". */
  datatype HvacAction = ActionOff | Heating | Idle

  /** `hvac_mode`: OFF only for the boolean false. */
  function Mode(dp: DpMap): (m: HvacMode)
    ensures m == Off <==> Get(dp, DP_SWITCH) == VBool(false)
    ensures m == Off || m == Heat
  {
    if BoolDp(dp, DP_SWITCH) == Some(false) then Off else Heat
  }

  /** `work_state`, compared case-insensitively, names a state the entity knows. */
  predicate WorkStateIs(dp: DpMap, name: string)
    ensures WorkStateIs(dp, name) ==> Get(dp, DP_WORK_STATE).VStr? && |Get(dp, DP_WORK_STATE).s| == |name|
  {
    Get(dp, DP_WORK_STATE).VStr? && Lower(Get(dp, DP_WORK_STATE).s) == name
  }

  /** `hvac_action`. */
  function Action(dp: DpMap): (a: Option<HvacAction>)
    ensures a == Some(ActionOff) <==> Mode(dp) == Off
    ensures Mode(dp) == Heat && WorkStateIs(dp, "heating") ==> a == Some(Heating)
    ensures Mode(dp) == Heat && WorkStateIs(dp, "stop") ==> a == Some(Idle)
    ensures a == None <==>
      Mode(dp) == Heat && !WorkStateIs(dp, "heating") && !WorkStateIs(dp, "stop")
      && (CurrentTemperature(dp).None? || TargetTemperature(dp).None?)
    ensures (Mode(dp) == Heat && !WorkStateIs(dp, "heating") && !WorkStateIs(dp, "stop")
      && CurrentTemperature(dp).Some? && TargetTemperature(dp).Some?) ==>
      a == Some(if CurrentTemperature(dp).value < TargetTemperature(dp).value then Heating else Idle)
  {
    if Mode(dp) == Off then Some(ActionOff)
    else
      var ws := Get(dp, DP_WORK_STATE);
      if ws.VStr? && Lower(ws.s) == "heating" then Some(Heating)
      else if ws.VStr? && Lower(ws.s) == "stop" then Some(Idle)
      else
        var cur := CurrentTemperature(dp);
        var tgt := TargetTemperature(dp);
        if cur.Some? && tgt.Some? then Some(if cur.value < tgt.value then Heating else Idle)
        else None
  }

  /** A mixed-case "Heating" work state reads as heating while the switch is on. */
  lemma MixedCaseWorkState(dp: DpMap)
    requires Get(dp, DP_SWITCH) == VBool(true) && Get(dp, DP_WORK_STATE) == VStr("Heating")
    ensures Action(dp) == Some(Heating)
  {
    assert Lower("Heating") == "heating";
  }

  /** Without a work state, 19.5 against a setpoint of 20.0 reads as heating and 20.5 as idle. */
  lemma TemperatureFallbackExamples(dp: DpMap)
    requires Get(dp, DP_WORK_STATE) == VNone && Get(dp, DP_TEMP_SET) == VInt(200)
    ensures Get(dp, DP_TEMP_CURRENT) == VInt(195) ==> Action(dp) == Some(if Mode(dp) == Off then ActionOff else Heating)
    ensures Get(dp, DP_TEMP_CURRENT) == VInt(205) ==> Action(dp) == Some(if Mode(dp) == Off then ActionOff else Idle)
  {
  }

  /** `preset_mode`: the lower-cased `mode` when it is a string. */
  function PresetMode(dp: DpMap): (p: Option<string>)
    ensures p.Some? <==> Get(dp, DP_MODE).VStr?
    ensures p.Some? ==> p.value == Lower(Get(dp, DP_MODE).s) && Lower(p.value) == p.value
  {
    match Get(dp, DP_MODE)
    case VStr(s) => LowerIdempotent(s); Some(Lower(s))
    case _ => None
  }

  /** The presets offered whatever the device reports. */
  const COMMON_PRESETS: set<string> := {"home", "away", "auto", "manual", "schedule", "comfort", "eco"}

  /** `COMMON_PRESETS` in ascending order. */
  const SORTED_COMMON_PRESETS: seq<string> := ["auto", "away", "comfort", "eco", "home", "manual", "schedule"]

  lemma SortedCommonPresets()
    ensures Sorted(SORTED_COMMON_PRESETS)
    ensures forall m :: m in SORTED_COMMON_PRESETS <==> m in COMMON_PRESETS
  {
    var s := SORTED_COMMON_PRESETS;
    assert LexLess(s[0], s[1]) && LexLess(s[1], s[2]) && LexLess(s[2], s[3]);
    assert LexLess(s[3], s[4]) && LexLess(s[4], s[5]) && LexLess(s[5], s[6]);
    SortedFromNeighbours(s);
  }

  /** `preset_modes`: the common presets plus the observed one, sorted, no duplicates. */
  function PresetModes(dp: DpMap): (r: seq<string>)
    ensures Sorted(r)
    ensures forall i, j :: 0 <= i < j < |r| ==> r[i] != r[j]
    ensures forall m :: m in r <==> m in COMMON_PRESETS || PresetMode(dp) == Some(m)
  {
    SortedCommonPresets();
    var r := match PresetMode(dp)
      case Some(m) => Insert(m, SORTED_COMMON_PRESETS)
      case None => SORTED_COMMON_PRESETS;
    SortedDistinct(r);
    r
  }

  // ---------------------------------------------------------------------
  // Building command batches
  // ---------------------------------------------------------------------

  /** `max(min_temp, min(max_temp, t))`. */
  function Clamp(dp: DpMap, t: real): (r: real)
    ensures MinTemp(dp) <= r
    ensures MinTemp(dp) <= MaxTemp(dp) ==> r <= MaxTemp(dp)
    ensures MinTemp(dp) <= t <= MaxTemp(dp) ==> r == t
    ensures r == t || r == MinTemp(dp) || r == MaxTemp(dp)
    ensures MaxTemp(dp) < t ==> r == (if MinTemp(dp) < MaxTemp(dp) then MaxTemp(dp) else MinTemp(dp))
    ensures t < MinTemp(dp) ==> r == MinTemp(dp)
  {
    var upper := if MaxTemp(dp) < t then MaxTemp(dp) else t;
    if MinTemp(dp) < upper then upper else MinTemp(dp)
  }

  /** The batch `async_set_temperature` sends; empty when no temperature is given. */
  function TemperatureCommands(dp: DpMap, requested: Option<real>): (cmds: seq<Api.Command>)
    ensures requested.None? <==> cmds == []
    ensures requested.Some? ==> (|cmds| == 1 && cmds[0].code == DP_TEMP_SET && cmds[0].value.VInt?
      && Clamp(dp, requested.value) - 0.05 <= cmds[0].value.i as real / 10.0 <= Clamp(dp, requested.value) + 0.05)
  {
    match requested
    case None => []
    case Some(t) => [Api.Command(DP_TEMP_SET, VInt(ScaleToDev(Clamp(dp, t))))]
  }

  /** The batch `async_set_hvac_mode` sends; empty for a mode other than OFF and HEAT. */
  function HvacModeCommands(mode: HvacMode): (cmds: seq<Api.Command>)
    ensures cmds != [] <==> mode == Off || mode == Heat
    ensures cmds != [] ==> cmds == [Api.Command(DP_SWITCH, VBool(mode != Off))]
  {
    match mode
    case Off => [Api.Command(DP_SWITCH, VBool(false))]
    case Heat => [Api.Command(DP_SWITCH, VBool(true))]
    case _ => []
  }

  /** The batch `async_set_preset_mode` sends; empty for a non-string preset. */
  function PresetCommands(preset: Value): (cmds: seq<Api.Command>)
    ensures cmds != [] <==> preset.VStr?
    ensures cmds != [] ==> (|cmds| == 1 && cmds[0].code == DP_MODE && cmds[0].value.VStr?
      && cmds[0].value == VStr(Lower(preset.s)) && Lower(cmds[0].value.s) == cmds[0].value.s)
  {
    match preset
    case VStr(s) => LowerIdempotent(s); [Api.Command(DP_MODE, VStr(Lower(s)))]
    case _ => []
  }

  /** The data points of a device that has stored every command of a batch. */
  function Apply(dp: DpMap, cmds: seq<Api.Command>): (r: DpMap)
    ensures forall c :: c in dp ==> c in r
    decreases |cmds|
  {
    if cmds == [] then dp else Apply(dp[cmds[0].code := cmds[0].value], cmds[1..])
  }

  lemma ApplyOne(dp: DpMap, c: Api.Command)
    ensures Apply(dp, [c]) == dp[c.code := c.value]
  {
    assert [c][1..] == [];
  }

  /** A device that stores the switch command reports the requested mode. */
  lemma HvacModeReadBack(dp: DpMap, mode: HvacMode)
    requires mode == Off || mode == Heat
    ensures Mode(Apply(dp, HvacModeCommands(mode))) == mode
  {
    ApplyOne(dp, HvacModeCommands(mode)[0]);
  }

  /** A device that stores the preset command reports the lower-cased preset. */
  lemma PresetReadBack(dp: DpMap, preset: string)
    ensures PresetMode(Apply(dp, PresetCommands(VStr(preset)))) == Some(Lower(preset))
    ensures Lower(preset) in PresetModes(Apply(dp, PresetCommands(VStr(preset))))
  {
    ApplyOne(dp, PresetCommands(VStr(preset))[0]);
    LowerIdempotent(preset);
  }

  /** A device that stores the setpoint command reports the clamped request within half a tenth. */
  lemma TemperatureReadBack(dp: DpMap, t: real)
    ensures TargetTemperature(Apply(dp, TemperatureCommands(dp, Some(t)))).Some?
    ensures var x := TargetTemperature(Apply(dp, TemperatureCommands(dp, Some(t)))).value;
      Clamp(dp, t) - 0.05 <= x <= Clamp(dp, t) + 0.05
  {
    ApplyOne(dp, TemperatureCommands(dp, Some(t))[0]);
    ScaleBackWithinResolution(Clamp(dp, t));
  }

  /** Without reported bounds, 35 degrees is clamped to 30 and sent as 300 tenths. */
  lemma ClampExample()
    ensures TemperatureCommands(map[], Some(35.0)) == [Api.Command(DP_TEMP_SET, VInt(300))]
  {
    RoundHalfEvenUnique(300.0, 300);
  }

  /** A device missing from the snapshot reads as no data: every reading is unknown or its default. */
  lemma MissingDeviceReadings(snapshot: Snapshot, deviceId: string)
    requires deviceId !in snapshot || snapshot[deviceId] == map[]
    ensures CurrentTemperature(StatusOf(snapshot, deviceId)) == None
    ensures TargetTemperature(StatusOf(snapshot, deviceId)) == None
    ensures MinTemp(StatusOf(snapshot, deviceId)) == ATTR_MIN_TEMP
    ensures MaxTemp(StatusOf(snapshot, deviceId)) == ATTR_MAX_TEMP
    ensures Mode(StatusOf(snapshot, deviceId)) == Heat
    ensures Action(StatusOf(snapshot, deviceId)) == None
    ensures PresetMode(StatusOf(snapshot, deviceId)) == None
    ensures PresetModes(StatusOf(snapshot, deviceId)) == SORTED_COMMON_PRESETS
  {
  }

  // ---------------------------------------------------------------------
  // The entity
  // ---------------------------------------------------------------------

  class ThermostatEntity {
    const coordinator: Coordinator.ThermostatCoordinator
    const deviceId: string

    constructor (coordinator: Coordinator.ThermostatCoordinator, deviceId: string)
      ensures this.coordinator == coordinator && this.deviceId == deviceId
    {
      this.coordinator, this.deviceId := coordinator, deviceId;
    }

    /** The device's data points in the coordinator's current snapshot. */
    function Status(): (dp: DpMap)
      reads coordinator
      ensures deviceId in coordinator.data ==> dp == coordinator.data[deviceId]
      ensures deviceId !in coordinator.data ==> dp == map[]
    {
      StatusOf(coordinator.data, deviceId)
    }

    /**
     * Sends one batch through the client and asks for a refresh only when
     * the cloud accepted it. A client without a session raises.
     */
    method Send(cmds: seq<Api.Command>, reply: Response) returns (r: Outcome)
      modifies coordinator`refreshRequests, coordinator.client`requests
      ensures !coordinator.client.connected ==> (r == Fail(NotConnected)
        && coordinator.client.requests == old(coordinator.client.requests)
        && coordinator.refreshRequests == old(coordinator.refreshRequests))
      ensures coordinator.client.connected ==> (r == Pass
        && coordinator.client.requests == old(coordinator.client.requests) + [Api.Post(Api.CommandsPath(deviceId), Api.Payload(cmds))]
        && coordinator.refreshRequests == old(coordinator.refreshRequests) + (if Api.SuccessIsTrue(reply) then 1 else 0))
    {
      var ok := coordinator.client.SendCommands(deviceId, cmds, reply);
      if ok.Err? { return Fail(ok.error); }
      if ok.value {
        coordinator.refreshRequests := coordinator.refreshRequests + 1;
      }
      r := Pass;
    }

    method SetTemperature(requested: Option<real>, reply: Response) returns (r: Outcome)
      modifies coordinator`refreshRequests, coordinator.client`requests
      ensures requested.None? ==> (r == Pass
        && coordinator.client.requests == old(coordinator.client.requests)
        && coordinator.refreshRequests == old(coordinator.refreshRequests))
      ensures requested.Some? && !coordinator.client.connected ==> (r == Fail(NotConnected)
        && coordinator.client.requests == old(coordinator.client.requests)
        && coordinator.refreshRequests == old(coordinator.refreshRequests))
      ensures requested.Some? && coordinator.client.connected ==> (r == Pass
        && coordinator.client.requests == old(coordinator.client.requests)
             + [Api.Post(Api.CommandsPath(deviceId), Api.Payload(TemperatureCommands(Status(), requested)))]
        && coordinator.refreshRequests == old(coordinator.refreshRequests) + (if Api.SuccessIsTrue(reply) then 1 else 0))
    {
      if requested.None? { return Pass; }
      var dp := Status();
      var tgt := Clamp(dp, requested.value);
      var devVal := ScaleToDev(tgt);
      var cmds := [Api.Command(DP_TEMP_SET, VInt(devVal))];
      r := Send(cmds, reply);
    }

    method SetHvacMode(mode: HvacMode, reply: Response) returns (r: Outcome)
      modifies coordinator`refreshRequests, coordinator.client`requests
      ensures mode != Off && mode != Heat ==> (r == Pass
        && coordinator.client.requests == old(coordinator.client.requests)
        && coordinator.refreshRequests == old(coordinator.refreshRequests))
      ensures (mode == Off || mode == Heat) && !coordinator.client.connected ==> (r == Fail(NotConnected)
        && coordinator.client.requests == old(coordinator.client.requests)
        && coordinator.refreshRequests == old(coordinator.refreshRequests))
      ensures (mode == Off || mode == Heat) && coordinator.client.connected ==> (r == Pass
        && coordinator.client.requests == old(coordinator.client.requests)
             + [Api.Post(Api.CommandsPath(deviceId), Api.Payload(HvacModeCommands(mode)))]
        && coordinator.refreshRequests == old(coordinator.refreshRequests) + (if Api.SuccessIsTrue(reply) then 1 else 0))
    {
      var cmds: seq<Api.Command> := [];
      if mode == Off {
        cmds := cmds + [Api.Command(DP_SWITCH, VBool(false))];
      } else if mode == Heat {
        cmds := cmds + [Api.Command(DP_SWITCH, VBool(true))];
      } else {
        return Pass;
      }
      r := Send(cmds, reply);
    }

    method SetPresetMode(preset: Value, reply: Response) returns (r: Outcome)
      modifies coordinator`refreshRequests, coordinator.client`requests
      ensures !preset.VStr? ==> (r == Pass
        && coordinator.client.requests == old(coordinator.client.requests)
        && coordinator.refreshRequests == old(coordinator.refreshRequests))
      ensures preset.VStr? && !coordinator.client.connected ==> (r == Fail(NotConnected)
        && coordinator.client.requests == old(coordinator.client.requests)
        && coordinator.refreshRequests == old(coordinator.refreshRequests))
      ensures preset.VStr? && coordinator.client.connected ==> (r == Pass
        && coordinator.client.requests == old(coordinator.client.requests)
             + [Api.Post(Api.CommandsPath(deviceId), Api.Payload(PresetCommands(preset)))]
        && coordinator.refreshRequests == old(coordinator.refreshRequests) + (if Api.SuccessIsTrue(reply) then 1 else 0))
    {
      if !preset.VStr? { return Pass; }
      var cmds := [Api.Command(DP_MODE, VStr(Lower(preset.s)))];
      r := Send(cmds, reply);
    }
  }
}
