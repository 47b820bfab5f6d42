# Tuya TDK thermostat integration: a verified model of its core

This project models, in Dafny, the core of the Home Assistant integration that
exposes a Tuya cloud thermostat as a climate entity. The model has three parts:

- **Cloud client** (`api.dfy`, module `Api`). The client has a connected flag
  (`_openapi` set or not) and a log of the requests sent through the vendor
  SDK. The SDK's answers are inputs. The module post-processes the answers of
  the status, shadow-properties, device-list and command endpoints. It also
  merges shadow properties over status.
- **Polling coordinator** (`coordinator.dfy`, module `Coordinator`). One poll
  cycle fetches the merged data points (DPs) of every configured device, in
  order, into a fresh snapshot. If any fetch raises, the whole cycle fails.
- **Climate entity** (`climate.dfy`, module `Climate`). It derives readings
  from one device's DP map: current and target temperature, min/max bounds,
  HVAC mode, HVAC action, preset and preset list. Its three setters build a
  command batch, send it through the client, and ask for a refresh only when
  the cloud accepted it.

Shared definitions live in `values.dfy` (module `Values`): the JSON value
type, the DP-map and snapshot types, the error cases and the constants of
`const.py`. `text.dfy` (module `Text`) holds the string operations the core
relies on: ASCII lower-casing, Python's code-point string ordering and the
plain decimal numerals among those `float()` accepts.

Representation choices:

- A DP value is a JSON value: `VNone | VBool | VInt | VReal | VStr | VList | VDict`.
  A real boolean is kept apart from the numbers, and a string from the other values.
- Temperatures are exact reals. `_scale_from_dev` multiplies by exactly 1/10.
  `_scale_to_dev` divides by exactly 1/10 and rounds to the nearest integer,
  with ties going to the even one, as Python's `round` does.
- An exception is an `Err`/`Fail` value. The coordinator's `UpdateFailed`
  wraps the cause.
- Reads degrade to an empty map whenever `success` is not exactly `true`.
  On success, every response shape is followed the way the Python code walks
  it. A list of records is processed normally. A string or dict `result` is
  iterated. A shape without `.get` raises, and so does a missing `value` key
  or an unhashable code.
- The design keeps one edge case on purpose: a bound that scales to exactly
  0.0 falls back to 5.0 / 30.0, like a missing bound. `MinTemp` and `MaxTemp`
  state this.
- The merge in `get_device_status_map` special-cases an empty side. That case
  never changes the result: `MergeIsUpdate` proves the merge is always
  "status updated by shadow".

## Model

| member | source | states |
|---|---|---|
| `Values.Truthy` | custom_components/tuya_tdk_thermostat/api.py:58-59 | Python truthiness: the falsy values are exactly null, false, 0, 0.0, the empty string, the empty list and the empty object. |
| `Api.SuccessIsTrue` | custom_components/tuya_tdk_thermostat/api.py:42 | `success is True`: success implies `success` is present and truthy. |
| `Api.TruthyIsNotSuccess` | custom_components/tuya_tdk_thermostat/api.py:42 | A truthy `success` other than a boolean, such as 1 or "true", is not a success. |
| `Text.ContainsSub` | custom_components/tuya_tdk_thermostat/api.py:44 | `"code" in s` on a string: only a string at least as long as `"code"` can contain it. |
| `Text.ContainsSubOccurs` | custom_components/tuya_tdk_thermostat/api.py:44 | The substring test holds exactly when `"code"` occurs at some index of the string. |
| `Api.TuyaClient.constructor` | custom_components/tuya_tdk_thermostat/api.py:14-18 | A new client keeps its endpoint and credentials, has no session and has sent no request. |
| `Api.TuyaClient.Connect` | custom_components/tuya_tdk_thermostat/api.py:20-24 | Afterwards the client counts as connected, even when the login fails. It reports the login failure. Only this operation sets the flag: every other method may modify only the request log. |
| `Api.TuyaClient.ListDevices` | custom_components/tuya_tdk_thermostat/api.py:26-33 | Raises "not connected" without a request while there is no session. Otherwise it sends one GET to the devices path and answers as `DeviceListFromResponse`. |
| `Api.DeviceListFromResponse` | custom_components/tuya_tdk_thermostat/api.py:29-33 | Succeeds exactly when `success` is the boolean true and `result` is absent or an object. It then gives `result.list` (`[]` when `list` is missing), or `[]` when `result` is absent. Any other `success` raises with the response. |
| `Api.TuyaClient.GetDeviceStatus` | custom_components/tuya_tdk_thermostat/api.py:35-46 | The not-connected guard, then one GET to the device's status path. The answer is `StatusFromResponse`. |
| `Api.StatusFromResponse` | custom_components/tuya_tdk_thermostat/api.py:42-46 | Any `success` other than the boolean true gives the empty map and never raises. A missing `result` also gives the empty map. The only error is a malformed response. |
| `Api.StatusEntry` | custom_components/tuya_tdk_thermostat/api.py:44 | An item adds an entry only if it is an object with a string `code` and a `value`. An object without `code` is skipped. An object with `code` but no `value` raises. |
| `Api.StatusOfRecords` | custom_components/tuya_tdk_thermostat/api.py:42-44 | For a successful list of objects, where every object with a `code` has a string code and a `value`, the read succeeds. The keys are exactly the codes that occur. Objects without a `code` are skipped without reading `value`. |
| `Api.StatusLaterWins` | custom_components/tuya_tdk_thermostat/api.py:44 | A later item with the same code overwrites an earlier one: each code maps to the value of its last item. |
| `Api.Collect` | custom_components/tuya_tdk_thermostat/api.py:60-66 | Walks the result list in order into a DP map. The empty list gives the empty map, and a failure is always a malformed response. Its behaviour is stated by `CollectOk`, `CollectKeys` and `CollectLast`. |
| `Api.CollectOk` | custom_components/tuya_tdk_thermostat/api.py:44 | Turning a result list into a map fails exactly when some element raises. |
| `Api.CollectKeys` | custom_components/tuya_tdk_thermostat/api.py:60-66 | The keys of the collected map are exactly the codes its elements put. |
| `Api.CollectLast` | custom_components/tuya_tdk_thermostat/api.py:60-66 | Each collected code maps to the value of the last element that puts it. |
| `Api.ShadowProperties` | custom_components/tuya_tdk_thermostat/api.py:58-59 | A falsy or missing `result` is the empty list. A truthy `result` that is not an object raises. For an object `result`, a falsy or missing `properties` is the empty list, a non-empty list is walked as it is, and any other truthy value raises. |
| `Api.ShadowFromResponse` | custom_components/tuya_tdk_thermostat/api.py:57-68 | A `success` other than the boolean true gives the empty map without raising, and so do a falsy `result` and an empty property list. The only error is a malformed response. |
| `Api.ShadowEntry` | custom_components/tuya_tdk_thermostat/api.py:61-65 | A dict property with a string `code` puts that code with its `value` (None when missing). A missing or null code is skipped. An unhashable code (list or dict) raises, and so does a property that is not a dict. |
| `Api.ShadowSkipsMissingCodes` | custom_components/tuya_tdk_thermostat/api.py:57-66 | For a successful answer whose properties are dicts with a usable code, the read succeeds. Its keys are exactly the string codes. Properties with a missing or null code are skipped. |
| `Api.ShadowLaterWins` | custom_components/tuya_tdk_thermostat/api.py:61-65 | A later property with the same code overwrites an earlier one: each code holds the value of its last property. |
| `Api.MapProperties` | custom_components/tuya_tdk_thermostat/api.py:60-66 | The loop that fills `mapped` one property at a time computes exactly the collected shadow map, and raises where the collection raises. |
| `Api.CollectAbort` | custom_components/tuya_tdk_thermostat/api.py:60-66 | Once a property raises, the rest of the list does not matter: the whole walk raises. |
| `Api.TuyaClient.GetDeviceShadowProperties` | custom_components/tuya_tdk_thermostat/api.py:48-68 | The not-connected guard, then one GET to the shadow path. The answer is `ShadowFromResponse`. |
| `Api.MergeStatus` | custom_components/tuya_tdk_thermostat/api.py:79-83 | The merged keys are the union of shadow and status keys. Shadow values win on shared codes, and status-only codes keep their status value. An empty side yields the other side unchanged, and two empty sides yield the empty map. |
| `Api.MergeIsUpdate` | custom_components/tuya_tdk_thermostat/api.py:79-83 | The merge, special cases included, always equals "status updated by shadow". |
| `Api.StatusMapFromResponses` | custom_components/tuya_tdk_thermostat/api.py:77-83 | Succeeds exactly when both reads succeed, and fails only with a malformed response. The keys are the union of the shadow and status codes. Shadow values win, status-only codes keep their status value, and two failed reads give the empty map. |
| `Api.TuyaClient.GetDeviceStatusMap` | custom_components/tuya_tdk_thermostat/api.py:70-83 | Fetches shadow first, then status. An error in the shadow read means status is not requested. The result is `StatusMapFromResponses` of the two answers. |
| `Api.TuyaClient.SendCommands` | custom_components/tuya_tdk_thermostat/api.py:94-102 | The not-connected guard, then exactly one POST of `{"commands": commands}` to the device's commands path. Returns true exactly when `success` is the boolean true. |
| `Api.CommandsJson` | custom_components/tuya_tdk_thermostat/api.py:97 | The payload list has one `{code, value}` object per command, in the same order. |
| `Api.PayloadRoundTrip` | custom_components/tuya_tdk_thermostat/api.py:97-98 | Decoding the posted payload gives back the command list, unchanged and in order. |
| `Coordinator.ThermostatCoordinator.constructor` | custom_components/tuya_tdk_thermostat/coordinator.py:19-27 | Keeps the client and the ordered device list. The poll interval is 10 seconds. |
| `Coordinator.OrEmpty` | custom_components/tuya_tdk_thermostat/coordinator.py:36 | A missing answer is stored as the empty DP map, and an answer as itself. |
| `Coordinator.ThermostatCoordinator.UpdateData` | custom_components/tuya_tdk_thermostat/coordinator.py:29-39 | The cycle succeeds exactly when every fetch does. Its snapshot's keys are exactly the configured ids, and a repeated id keeps its last fetch. Devices are fetched one at a time in configured order. On the first raising fetch, the cycle fails with `UpdateFailed` of that error, and no later device is fetched. |
| `Coordinator.PolledStep` | custom_components/tuya_tdk_thermostat/coordinator.py:32-36 | Storing the i-th device's answer extends the snapshot of the first i devices to the first i+1. |
| `Coordinator.PolledAll` | custom_components/tuya_tdk_thermostat/coordinator.py:30-37 | Once every device is stored, each id holds its last fetched answer. |
| `Climate.ScaleFromDev` | custom_components/tuya_tdk_thermostat/climate.py:55-61 | An absent value, a list or an object gives None. Integers, reals and booleans are multiplied by exactly 1/10. A string is scaled by 1/10 when it is a plain decimal numeral (`ParseDecimal`), and otherwise gives None. |
| `Values.GetOr` | custom_components/tuya_tdk_thermostat/api.py:62-63 | `d.get(key, default)`: the stored value when the key is present, the default otherwise. |
| `Climate.ToFloat` | custom_components/tuya_tdk_thermostat/climate.py:59 | `float(v)` on DP values: booleans are 1 and 0, integers and reals are themselves, a string is read by `ParseDecimal`, and null, lists and objects raise (None). |
| `Climate.NumeralStringScales` | custom_components/tuya_tdk_thermostat/climate.py:55-61 | A DP holding a digit string of tenths, such as "215", reads as that many tenths of a degree (21.5). |
| `Climate.NegativeStringScales` | custom_components/tuya_tdk_thermostat/climate.py:55-61 | A DP holding "-" followed by digits reads as the negative number of tenths. |
| `Climate.TwoPointStringUnknown` | custom_components/tuya_tdk_thermostat/climate.py:58-61 | "1.2.3" is not a number, so the reading is unknown. |
| `Climate.RoundHalfEven` | custom_components/tuya_tdk_thermostat/climate.py:64 | The result lies within 1/2 of the input, and a tie goes to the even integer. |
| `Climate.RoundHalfEvenUnique` | custom_components/tuya_tdk_thermostat/climate.py:64 | Those two properties determine the rounded value uniquely. |
| `Climate.ScaleToDev` | custom_components/tuya_tdk_thermostat/climate.py:63-64 | The device value, read back in degrees, is within 0.05 of the requested degrees. |
| `Climate.ScaleRoundTrip` | custom_components/tuya_tdk_thermostat/climate.py:55-64 | `_scale_to_dev(_scale_from_dev(n)) == n` for every integer tenths value `n`. |
| `Climate.ScaleBackWithinResolution` | custom_components/tuya_tdk_thermostat/climate.py:55-64 | `_scale_from_dev(_scale_to_dev(c))` is within 0.05 of `c`. |
| `Climate.StatusOf` | custom_components/tuya_tdk_thermostat/climate.py:81-82 | A device missing from the snapshot reads as the empty DP map. |
| `Climate.ThermostatEntity.Status` | custom_components/tuya_tdk_thermostat/climate.py:81-82 | The entity's DPs are its device's entry in the coordinator's current snapshot, or the empty map when the device is missing. |
| `Climate.Get` | custom_components/tuya_tdk_thermostat/climate.py:84-85 | `_get(code)`: the DP value when present, None otherwise. |
| `Climate.MissingDeviceReadings` | custom_components/tuya_tdk_thermostat/climate.py:81-152 | With no DPs, every reading is unknown or its default: no temperatures, bounds 5.0/30.0, HEAT, no action, no preset, and exactly the seven common presets. |
| `Climate.BoolDp` | custom_components/tuya_tdk_thermostat/climate.py:87-89 | A DP reads as a boolean exactly when it holds a real boolean, and then as that boolean. |
| `Climate.CurrentTemperature` | custom_components/tuya_tdk_thermostat/climate.py:91-93 | Unknown when `temp_current` is absent. An integer DP reads as tenths of a degree. |
| `Climate.TargetTemperature` | custom_components/tuya_tdk_thermostat/climate.py:95-97 | Unknown when `temp_set` is absent. An integer DP reads as tenths of a degree. |
| `Climate.BoundOr` | custom_components/tuya_tdk_thermostat/climate.py:102 | `scaled or fallback`: a missing or zero scaled bound gives the fallback. |
| `Climate.MinTemp` | custom_components/tuya_tdk_thermostat/climate.py:99-102 | Never 0. A `lower_temp` that scales to a non-zero number is used as it is. A missing or unconvertible one gives 5.0, and so does one that scales to exactly 0. |
| `Climate.MaxTemp` | custom_components/tuya_tdk_thermostat/climate.py:104-107 | Never 0. An `upper_temp` that scales to a non-zero number is used as it is. A missing or unconvertible one gives 30.0, and so does one that scales to exactly 0. |
| `Climate.Mode` | custom_components/tuya_tdk_thermostat/climate.py:109-114 | OFF exactly when `switch` is the boolean false. Anything else gives HEAT: true, missing, 0 or "false". |
| `Climate.WorkStateIs` | custom_components/tuya_tdk_thermostat/climate.py:124-130 | The `isinstance(ws, str)` and `ws.lower() == name` test: it holds only for a string `work_state` of the same length as `name`. |
| `Climate.Action` | custom_components/tuya_tdk_thermostat/climate.py:116-136 | "off" exactly when the mode is OFF, whatever `work_state` says. Otherwise a case-insensitive "heating" gives heating and "stop" gives idle. Any other work state falls back to current < target (heating, else idle). The result is unknown exactly when that fallback lacks a temperature. |
| `Climate.MixedCaseWorkState` | custom_components/tuya_tdk_thermostat/climate.py:124-128 | With the switch on, `work_state` "Heating" reads as heating. |
| `Climate.TemperatureFallbackExamples` | custom_components/tuya_tdk_thermostat/climate.py:132-135 | Without a work state and with a setpoint of 20.0, a current 19.5 reads as heating and 20.5 as idle (or off when switched off). |
| `Climate.PresetMode` | custom_components/tuya_tdk_thermostat/climate.py:138-143 | Known exactly when `mode` is a string. It is then that string lower-cased, which is already lower case. |
| `Climate.SortedCommonPresets` | custom_components/tuya_tdk_thermostat/climate.py:151-152 | The fixed presets in ascending order are exactly the common preset set. |
| `Climate.PresetModes` | custom_components/tuya_tdk_thermostat/climate.py:145-152 | Strictly ascending in Python's string order, without duplicates. Contains exactly the seven common presets plus the observed lower-cased mode. |
| `Text.Insert` | custom_components/tuya_tdk_thermostat/climate.py:152 | Adding the observed mode to a sorted list keeps it strictly sorted, with exactly the old elements plus the new one. |
| `Text.LexLess` | custom_components/tuya_tdk_thermostat/climate.py:152 | `<` on strings as `sorted` uses it: two strings in this order are different, and a proper prefix sorts before the longer string. |
| `Text.LexLessIrreflexive` | custom_components/tuya_tdk_thermostat/climate.py:152 | No string sorts before itself. |
| `Text.LexLessTransitive` | custom_components/tuya_tdk_thermostat/climate.py:152 | The string order `sorted` uses is transitive. |
| `Text.LexLessTotal` | custom_components/tuya_tdk_thermostat/climate.py:152 | Of two different strings, one sorts before the other. |
| `Text.Lower` | custom_components/tuya_tdk_thermostat/climate.py:126 | Lower-casing keeps the length and maps each ASCII capital to its small letter. |
| `Text.LowerIdempotent` | custom_components/tuya_tdk_thermostat/climate.py:142 | Lower-casing twice is lower-casing once. |
| `Text.ParseDecimal` | custom_components/tuya_tdk_thermostat/climate.py:59 | The plain-decimal subset of `float(str)`: an optional sign, digits with at most one point, and surrounding ASCII white space. Within that subset, a string without any digit is not a number. |
| `Text.ParseNatural` | custom_components/tuya_tdk_thermostat/climate.py:59 | A non-empty digit string reads as the number its digits spell. |
| `Text.ParseNegative` | custom_components/tuya_tdk_thermostat/climate.py:59 | A minus sign before a digit string negates it. |
| `Text.ParseFraction` | custom_components/tuya_tdk_thermostat/climate.py:59 | `whole.frac` reads as the whole part plus the fractional digits over the matching power of ten. |
| `Text.TwoPointsRejected` | custom_components/tuya_tdk_thermostat/climate.py:59 | A numeral with two decimal points is not a number. |
| `Climate.Clamp` | custom_components/tuya_tdk_thermostat/climate.py:158 | A request between the bounds is kept. A request below `min_temp` becomes `min_temp`. A request above `max_temp` becomes `max_temp`, or `min_temp` when that is not lower. The result is never below `min_temp` and, with ordered bounds, never above `max_temp`. |
| `Climate.TemperatureCommands` | custom_components/tuya_tdk_thermostat/climate.py:154-160 | No temperature, no command. Otherwise exactly one `temp_set` command whose tenths are within 0.05 degrees of the clamped request. |
| `Climate.ClampExample` | custom_components/tuya_tdk_thermostat/climate.py:158-160 | Without reported bounds, 35.0 is clamped to 30.0 and sent as 300. |
| `Climate.HvacModeCommands` | custom_components/tuya_tdk_thermostat/climate.py:166-174 | OFF sends `[switch=false]` and HEAT sends `[switch=true]`. Any other mode sends nothing. |
| `Climate.PresetCommands` | custom_components/tuya_tdk_thermostat/climate.py:181-184 | A non-string preset sends nothing. A string sends exactly one `mode` command carrying the lower-cased preset. |
| `Climate.HvacModeReadBack` | custom_components/tuya_tdk_thermostat/climate.py:109-114 | A device that stores the switch command then reports the requested mode. |
| `Climate.PresetReadBack` | custom_components/tuya_tdk_thermostat/climate.py:138-152 | A device that stores the preset command then reports the lower-cased preset, which is among the offered presets. |
| `Climate.TemperatureReadBack` | custom_components/tuya_tdk_thermostat/climate.py:95-97 | A device that stores the setpoint command then reports the clamped request within 0.05 degrees. |
| `Climate.ApplyOne` | custom_components/tuya_tdk_thermostat/climate.py:160 | Storing a one-command batch sets exactly that DP. |
| `Climate.ThermostatEntity.constructor` | custom_components/tuya_tdk_thermostat/climate.py:71-73 | The entity is bound to its coordinator and device id. |
| `Climate.ThermostatEntity.Send` | custom_components/tuya_tdk_thermostat/climate.py:161-164 | Without a session the call raises and changes nothing. Otherwise the batch is posted once, and a refresh is requested exactly when the send returned true. The snapshot is never touched. |
| `Climate.ThermostatEntity.SetTemperature` | custom_components/tuya_tdk_thermostat/climate.py:154-164 | No temperature: nothing is sent and no refresh is requested. Otherwise it posts `TemperatureCommands` of the current DPs and refreshes exactly on success. |
| `Climate.ThermostatEntity.SetHvacMode` | custom_components/tuya_tdk_thermostat/climate.py:166-179 | A mode other than OFF/HEAT sends nothing. Otherwise it posts `HvacModeCommands` and refreshes exactly on success. |
| `Climate.ThermostatEntity.SetPresetMode` | custom_components/tuya_tdk_thermostat/climate.py:181-188 | A non-string preset sends nothing. Otherwise it posts `PresetCommands` and refreshes exactly on success. |

## Left out

- HTTP, authentication and the vendor SDK (`TuyaOpenAPI`). Each SDK call is a logged request, and its decoded answer is a parameter. Whether the SDK's login raises is the `loginOk` parameter of `Connect`.
- Executor offload, the host framework's poll timer, refresh coalescing, and publishing a successful snapshot while keeping the last good one after a failure. These are host-framework scheduling. `data` is the field the framework publishes, and `refreshRequests` counts the refreshes the entity asks for.
- Logging, entity naming and unique ids, `supported_features`, `extra_state_attributes` (a verbatim copy of DPs), `get_device_functions` (a pass-through with the same failure rule as the other reads), the config flow and the entry setup/unload.
- `Climate.ScaleFromDev`: parses strings only in the plain decimal form. That is an optional sign, digits with at most one point, and surrounding ASCII white space. Python's `float` also accepts exponents, underscores, `inf`/`nan` and non-ASCII digits or white space; the model reads those as not a number. Integers too large for a float (an `OverflowError`, so None in the source) are scaled here.
- `Climate.ToFloat`: models `float` only as far as `Text.ParseDecimal` reads strings (see the line above). An integer too large for a float raises `OverflowError` in the source, so `_scale_from_dev` gives None there; here it is converted exactly.
- `Text.ParseDecimal`: accepts only the plain decimal form. `float("inf")`, `float("nan")`, `float("Infinity")`, exponents such as `"1e3"` and underscores such as `"1_0"` are numbers in Python but `None` here, so a digit-free string that Python reads as infinity or NaN is unknown in the model.
- `Climate.ScaleToDev`: uses exact reals. Floating-point error in `x * 0.1` and `x / 0.1` is not modelled, so the round trip is stated for integer tenths and exact degrees.
- `Text.Lower`: lower-cases ASCII letters only. Python's `str.lower` also maps non-ASCII capitals.
- `Api.StatusEntry`: skips an item whose code is a hashable non-string (number, boolean or null). The source stores it under a non-string key (`None` for null). No reading of the entity looks such a key up. It would only make the status map non-empty for the merge.
- `Api.ShadowEntry`: skips a property whose code is a number or boolean, for the same reason.
- The coordinator's `data` starts empty. The first refresh before the entities exist (`async_config_entry_first_refresh`) belongs to the entry setup. The snapshot never holds None for a device, since the poll cycle stores `status or {}`. So the entity's `or {}` is not modelled as a separate case.
