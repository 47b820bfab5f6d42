/**
 * The cloud client: the `connected` guard, the post-processing of the
 * responses of the status, shadow-properties, device-list and command
 * endpoints, and the shadow-over-status merge. The SDK's HTTP calls are
 * recorded in a request log; their responses are inputs.
 */
module Api {
  import opened Values
  import opened Text

  /** A data-point write as the command endpoint expects it. */
  datatype Command = Command(code: string, value: Value)

  /** What one element of a result list contributes to the DP map. */
  datatype Entry = Skip | Put(code: string, value: Value) | Raise

  /** A request made through the SDK. */
  datatype Request = Get(path: string) | Post(path: string, body: Value)

  const DEVICES_PATH: string := "/v1.0/iot-03/devices"

  function StatusPath(deviceId: string): string { "/v1.0/devices/" + deviceId + "/status" }
  function ShadowPath(deviceId: string): string { "/v2.0/cloud/thing/" + deviceId + "/shadow/properties" }
  function CommandsPath(deviceId: string): string { "/v1.0/devices/" + deviceId + "/commands" }

  /** `res.get("success") is True`: only the boolean true counts as success. */
  predicate SuccessIsTrue(res: Response)
    ensures SuccessIsTrue(res) ==> "success" in res && Truthy(res["success"])
  {
    "success" in res && res["success"] == VBool(true)
  }

  /** A truthy `success` that is not the boolean true is no success. */
  lemma TruthyIsNotSuccess(res: Response)
    requires "success" in res && Truthy(res["success"]) && !res["success"].VBool?
    ensures !SuccessIsTrue(res)
  {
  }

  // ---------------------------------------------------------------------
  // Turning result lists into DP maps
  // ---------------------------------------------------------------------

  /** How the /status comprehension treats one element of the result list. */
  function StatusEntry(item: Value): (e: Entry)
    ensures e.Put? ==> (item.VDict? && "value" in item.fields && "code" in item.fields
      && item.fields["code"] == VStr(e.code) && e.value == item.fields["value"])
    ensures item.VDict? && "code" !in item.fields ==> e == Skip
    ensures item.VDict? && "code" in item.fields && "value" !in item.fields ==> e == Raise
  {
    match item
    case VDict(d) =>
      if "code" !in d then Skip
      else if "value" !in d then Raise          // item["value"] is a KeyError
      else (match d["code"]
            case VStr(c) => Put(c, d["value"])
            case VList(_) => Raise               // unhashable key
            case VDict(_) => Raise               // unhashable key
            case _ => Skip)                      // a non-string key; no DP code
    case VStr(s) => if ContainsSub(s, "code") then Raise else Skip  // then s["code"] is a TypeError
    case VList(l) => if VStr("code") in l then Raise else Skip       // then l["code"] is a TypeError
    case _ => Raise                                                  // `in` on a scalar is a TypeError
  }

  /** How the shadow loop treats one property. */
  function ShadowEntry(p: Value): (e: Entry)
    ensures e.Put? ==> (p.VDict? && GetOr(p.fields, "code", VNone) == VStr(e.code)
      && e.value == GetOr(p.fields, "value", VNone))
    ensures p.VDict? && GetOr(p.fields, "code", VNone) == VNone ==> e == Skip
    ensures p.VDict? && GetOr(p.fields, "code", VNone).VStr? ==>
      e == Put(GetOr(p.fields, "code", VNone).s, GetOr(p.fields, "value", VNone))
    ensures p.VDict? && (GetOr(p.fields, "code", VNone).VList? || GetOr(p.fields, "code", VNone).VDict?) ==> e == Raise
    ensures !p.VDict? ==> e == Raise
  {
    match p
    case VDict(d) =>
      (match GetOr(d, "code", VNone)
       case VNone => Skip
       case VStr(c) => Put(c, GetOr(d, "value", VNone))
       case VList(_) => Raise
       case VDict(_) => Raise
       case _ => Skip)
    case _ => Raise                              // p.get on a non-dict is an AttributeError
  }

  predicate PutsCode(e: Entry, c: string) { e.Put? && e.code == c }

  /**
   * Inserts the entries of `items` from first to last, so that a later entry
   * for a code overwrites an earlier one; the first raising element aborts.
   */
  function Collect(classify: Value -> Entry, items: seq<Value>): (r: Result<DpMap>)
    ensures items == [] ==> r == Ok(map[])
    ensures r.Err? ==> r == Err(Malformed)
    decreases |items|
  {
    if items == [] then Ok(map[])
    else
      match Collect(classify, items[..|items| - 1])
      case Err(e) => Err(e)
      case Ok(m) =>
        match classify(items[|items| - 1])
        case Skip => Ok(m)
        case Put(c, v) => Ok(m[c := v])
        case Raise => Err(Malformed)
  }

  /** Collecting fails exactly when some element raises, and then with `Malformed`. */
  lemma {:induction false} CollectOk(classify: Value -> Entry, items: seq<Value>)
    ensures Collect(classify, items).Ok? <==> forall i :: 0 <= i < |items| ==> classify(items[i]) != Raise
    ensures Collect(classify, items).Err? ==> Collect(classify, items).error == Malformed
    decreases |items|
  {
    if items != [] {
      var n := |items| - 1;
      CollectOk(classify, items[..n]);
      assert forall i :: 0 <= i < n ==> items[..n][i] == items[i];
    }
  }

  /** The keys of a successful collection are the codes its elements put. */
  lemma {:induction false} CollectKeys(classify: Value -> Entry, items: seq<Value>, c: string)
    requires Collect(classify, items).Ok?
    ensures c in Collect(classify, items).value <==> exists i :: 0 <= i < |items| && PutsCode(classify(items[i]), c)
    decreases |items|
  {
    if items != [] {
      var n := |items| - 1;
      var front := items[..n];
      CollectKeys(classify, front, c);
      if exists i :: 0 <= i < n && PutsCode(classify(front[i]), c) {
        var i :| 0 <= i < n && PutsCode(classify(front[i]), c);
        assert PutsCode(classify(items[i]), c);
      }
      if exists i :: 0 <= i < |items| && PutsCode(classify(items[i]), c) {
        var i :| 0 <= i < |items| && PutsCode(classify(items[i]), c);
        if i < n { assert PutsCode(classify(front[i]), c); }
      }
    }
  }

  /** In a successful collection each code maps to the value of the LAST element that puts it. */
  lemma {:induction false} CollectLast(classify: Value -> Entry, items: seq<Value>, i: nat, c: string)
    requires Collect(classify, items).Ok?
    requires i < |items| && PutsCode(classify(items[i]), c)
    requires forall j :: i < j < |items| ==> !PutsCode(classify(items[j]), c)
    ensures c in Collect(classify, items).value
    ensures Collect(classify, items).value[c] == classify(items[i]).value
    decreases |items|
  {
    var n := |items| - 1;
    var front := items[..n];
    if i < n {
      assert front[i] == items[i];
      CollectLast(classify, front, i, c);
    }
  }

  /**
   * The post-processing of /status: on success, the elements of `result`
   * (default: no elements) as the dict comprehension walks them; on any
   * other `success`, the empty map.
   */
  function StatusFromResponse(res: Response): (r: Result<DpMap>)
    ensures !SuccessIsTrue(res) ==> r == Ok(map[])
    ensures SuccessIsTrue(res) && "result" !in res ==> r == Ok(map[])
    ensures r.Err? ==> r.error == Malformed
  {
    if !SuccessIsTrue(res) then Ok(map[])
    else
      match GetOr(res, "result", VList([]))
      case VList(items) => CollectOk(StatusEntry, items); Collect(StatusEntry, items)
      case VStr(_) => Ok(map[])   // iterating a string yields one-character strings, none containing "code"
      case VDict(d) =>            // iterating a dict yields its keys
        if exists k :: k in d && ContainsSub(k, "code") then Err(Malformed) else Ok(map[])
      case _ => Err(Malformed)     // not iterable
  }

  /** A successful /status answer whose result lists records maps each code to its last value. */
  lemma StatusOfRecords(res: Response, items: seq<Value>)
    requires SuccessIsTrue(res) && "result" in res && res["result"] == VList(items)
    requires forall i :: 0 <= i < |items| ==>
      items[i].VDict? && ("code" in items[i].fields ==> "value" in items[i].fields && items[i].fields["code"].VStr?)
    ensures StatusFromResponse(res).Ok?
    ensures forall c :: c in StatusFromResponse(res).value <==>
      exists i :: 0 <= i < |items| && "code" in items[i].fields && items[i].fields["code"] == VStr(c)
  {
    CollectOk(StatusEntry, items);
    var m := StatusFromResponse(res).value;
    forall c ensures c in m <==> exists i :: 0 <= i < |items| && "code" in items[i].fields && items[i].fields["code"] == VStr(c) {
      CollectKeys(StatusEntry, items, c);
      if c in m {
        var i :| 0 <= i < |items| && PutsCode(StatusEntry(items[i]), c);
        assert "code" in items[i].fields && items[i].fields["code"] == VStr(c);
      } else {
        forall i | 0 <= i < |items| && "code" in items[i].fields ensures items[i].fields["code"] != VStr(c) {
          assert !PutsCode(StatusEntry(items[i]), c);
        }
      }
    }
  }

  /** In a successful /status answer, a later item for a code overwrites an earlier one. */
  lemma StatusLaterWins(res: Response, items: seq<Value>, i: nat, c: string)
    requires SuccessIsTrue(res) && "result" in res && res["result"] == VList(items)
    requires StatusFromResponse(res).Ok?
    requires i < |items| && items[i].VDict? && "value" in items[i].fields
    requires "code" in items[i].fields && items[i].fields["code"] == VStr(c)
    requires forall j :: i < j < |items| && items[j].VDict? ==> GetOr(items[j].fields, "code", VNone) != VStr(c)
    ensures c in StatusFromResponse(res).value
    ensures StatusFromResponse(res).value[c] == items[i].fields["value"]
  {
    assert PutsCode(StatusEntry(items[i]), c);
    forall j | i < j < |items| ensures !PutsCode(StatusEntry(items[j]), c) {
    }
    CollectLast(StatusEntry, items, i, c);
  }

  /**
   * `res.get("result") or {}` then `.get("properties") or []`: the property
   * list to walk, or an error when one of them is truthy but of a shape
   * without `.get` or that cannot be iterated into dicts.
   */
  function ShadowProperties(res: Response): (r: Result<seq<Value>>)
    ensures r.Err? ==> r.error == Malformed
    ensures !Truthy(GetOr(res, "result", VNone)) ==> r == Ok([])
    ensures Truthy(GetOr(res, "result", VNone)) && !GetOr(res, "result", VNone).VDict? ==> r == Err(Malformed)
    ensures GetOr(res, "result", VNone).VDict? ==>
      var props := GetOr(GetOr(res, "result", VNone).fields, "properties", VNone);
      && (!Truthy(props) ==> r == Ok([]))
      && (Truthy(props) && props.VList? ==> r == Ok(props.items))
      && (Truthy(props) && !props.VList? ==> r == Err(Malformed))
  {
    var result := GetOr(res, "result", VNone);
    var result' := if Truthy(result) then result else VDict(map[]);
    match result'
    case VDict(d) =>
      var props := GetOr(d, "properties", VNone);
      if !Truthy(props) then Ok([])
      else if props.VList? then Ok(props.items)
      else Err(Malformed)
    case _ => Err(Malformed)
  }

  /** The post-processing of the shadow endpoint. */
  function ShadowFromResponse(res: Response): (r: Result<DpMap>)
    ensures !SuccessIsTrue(res) ==> r == Ok(map[])
    ensures SuccessIsTrue(res) && !Truthy(GetOr(res, "result", VNone)) ==> r == Ok(map[])
    ensures SuccessIsTrue(res) && ShadowProperties(res) == Ok([]) ==> r == Ok(map[])
    ensures r.Err? ==> r == Err(Malformed)
  {
    if !SuccessIsTrue(res) then Ok(map[])
    else
      match ShadowProperties(res)
      case Err(e) => Err(e)
      case Ok(props) => Collect(ShadowEntry, props)
  }

  /** A property whose code cannot be a dict key raises; every other one is read. */
  predicate HashableCode(p: Value)
  {
    p.VDict? && !GetOr(p.fields, "code", VNone).VList? && !GetOr(p.fields, "code", VNone).VDict?
  }

  /**
   * A successful shadow answer whose properties all have a usable code maps
   * exactly the string codes; properties without a code, or with a null
   * one, are skipped.
   */
  lemma ShadowSkipsMissingCodes(res: Response, props: seq<Value>)
    requires SuccessIsTrue(res) && ShadowProperties(res) == Ok(props)
    requires forall i :: 0 <= i < |props| ==> HashableCode(props[i])
    ensures ShadowFromResponse(res).Ok?
    ensures forall c :: c in ShadowFromResponse(res).value <==>
      exists i :: 0 <= i < |props| && props[i].VDict? && GetOr(props[i].fields, "code", VNone) == VStr(c)
  {
    CollectOk(ShadowEntry, props);
    var m := ShadowFromResponse(res).value;
    forall c ensures c in m <==> exists i :: 0 <= i < |props| && props[i].VDict? && GetOr(props[i].fields, "code", VNone) == VStr(c) {
      CollectKeys(ShadowEntry, props, c);
      if c in m {
        var i :| 0 <= i < |props| && PutsCode(ShadowEntry(props[i]), c);
        assert GetOr(props[i].fields, "code", VNone) == VStr(c);
      } else {
        forall i | 0 <= i < |props| ensures GetOr(props[i].fields, "code", VNone) != VStr(c) {
          assert !PutsCode(ShadowEntry(props[i]), c);
        }
      }
    }
  }

  /** In a successful shadow answer, each code holds the value of its last property. */
  lemma ShadowLaterWins(res: Response, props: seq<Value>, i: nat, c: string)
    requires SuccessIsTrue(res) && ShadowProperties(res) == Ok(props)
    requires ShadowFromResponse(res).Ok?
    requires i < |props| && props[i].VDict? && GetOr(props[i].fields, "code", VNone) == VStr(c)
    requires forall j :: i < j < |props| && props[j].VDict? ==> GetOr(props[j].fields, "code", VNone) != VStr(c)
    ensures c in ShadowFromResponse(res).value
    ensures ShadowFromResponse(res).value[c] == GetOr(props[i].fields, "value", VNone)
  {
    assert PutsCode(ShadowEntry(props[i]), c);
    forall j | i < j < |props| ensures !PutsCode(ShadowEntry(props[j]), c) {
    }
    CollectLast(ShadowEntry, props, i, c);
  }

  /** The shadow loop: fills `mapped` property by property. */
  method MapProperties(props: seq<Value>) returns (r: Result<DpMap>)
    ensures r == Collect(ShadowEntry, props)
  {
    var mapped: DpMap := map[];
    for i := 0 to |props|
      invariant Collect(ShadowEntry, props[..i]) == Ok(mapped)
    {
      assert props[..i + 1][..i] == props[..i];
      var p := props[i];
      if !p.VDict? {
        assert Collect(ShadowEntry, props[..i + 1]) == Err(Malformed);
        CollectAbort(props, i + 1);
        return Err(Malformed);
      }
      var code := GetOr(p.fields, "code", VNone);
      var value := GetOr(p.fields, "value", VNone);
      if code != VNone {
        match code {
          case VStr(c) => mapped := mapped[c := value];
          case VList(_) =>
            assert Collect(ShadowEntry, props[..i + 1]) == Err(Malformed);
            CollectAbort(props, i + 1);
            return Err(Malformed);
          case VDict(_) =>
            assert Collect(ShadowEntry, props[..i + 1]) == Err(Malformed);
            CollectAbort(props, i + 1);
            return Err(Malformed);
          case _ =>
        }
      }
    }
    assert props[..|props|] == props;
    return Ok(mapped);
  }

  /** Once a prefix raises, the whole list raises with the same error. */
  lemma {:induction false} CollectAbort(items: seq<Value>, k: nat)
    requires k <= |items|
    requires Collect(ShadowEntry, items[..k]).Err?
    ensures Collect(ShadowEntry, items) == Collect(ShadowEntry, items[..k])
    decreases |items| - k
  {
    if k < |items| {
      assert items[..k + 1][..k] == items[..k];
      CollectAbort(items, k + 1);
    } else {
      assert items[..k] == items;
    }
  }

  /**
   * `get_device_status_map`'s merge: both non-empty gives status updated by
   * shadow, otherwise whichever is non-empty (or the empty map).
   */
  function MergeStatus(shadow: DpMap, status: DpMap): (r: DpMap)
    ensures r.Keys == shadow.Keys + status.Keys
    ensures forall c :: c in shadow ==> r[c] == shadow[c]
    ensures forall c :: c in status && c !in shadow ==> r[c] == status[c]
    ensures shadow == map[] ==> r == status
    ensures status == map[] ==> r == shadow
  {
    if shadow != map[] && status != map[] then status + shadow
    else if shadow != map[] then shadow
    else status
  }

  /** The special cases are no exception: the merge is always status overwritten by shadow. */
  lemma MergeIsUpdate(shadow: DpMap, status: DpMap)
    ensures MergeStatus(shadow, status) == status + shadow
  {
  }

  /** The payload of a command batch: `{"commands": [{"code": .., "value": ..}, ..]}`. */
  function CommandJson(c: Command): Value
  {
    VDict(map["code" := VStr(c.code), "value" := c.value])
  }

  function CommandsJson(cmds: seq<Command>): (r: seq<Value>)
    ensures |r| == |cmds|
    ensures forall i :: 0 <= i < |cmds| ==> r[i] == CommandJson(cmds[i])
  {
    if cmds == [] then [] else [CommandJson(cmds[0])] + CommandsJson(cmds[1..])
  }

  function Payload(cmds: seq<Command>): Value
  {
    VDict(map["commands" := VList(CommandsJson(cmds))])
  }

  /** The vendor's reading of one command object. */
  function DecodeCommand(v: Value): Option<Command>
  {
    match v
    case VDict(d) =>
      if "code" in d && "value" in d && d["code"].VStr? then Some(Command(d["code"].s, d["value"])) else None
    case _ => None
  }

  function DecodeCommandList(vs: seq<Value>): Option<seq<Command>>
  {
    if vs == [] then Some([])
    else match (DecodeCommand(vs[0]), DecodeCommandList(vs[1..]))
      case (Some(c), Some(cs)) => Some([c] + cs)
      case _ => None
  }

  /** The vendor's reading of a command payload. */
  function DecodePayload(body: Value): Option<seq<Command>>
  {
    match body
    case VDict(d) => if "commands" in d && d["commands"].VList? then DecodeCommandList(d["commands"].items) else None
    case _ => None
  }

  /** The payload carries the command list unchanged and in order. */
  lemma {:induction false} PayloadRoundTrip(cmds: seq<Command>)
    ensures DecodePayload(Payload(cmds)) == Some(cmds)
  {
    CommandListRoundTrip(cmds);
  }

  lemma {:induction false} CommandListRoundTrip(cmds: seq<Command>)
    ensures DecodeCommandList(CommandsJson(cmds)) == Some(cmds)
  {
    if cmds != [] {
      CommandListRoundTrip(cmds[1..]);
      assert CommandsJson(cmds)[1..] == CommandsJson(cmds[1..]);
      assert [cmds[0]] + cmds[1..] == cmds;
    }
  }

  /** `list_devices`: `result.list` (default: empty list) on success; raises otherwise. */
  function DeviceListFromResponse(res: Response): (r: Result<Value>)
    ensures r.Ok? <==> SuccessIsTrue(res) && GetOr(res, "result", VDict(map[])).VDict?
    ensures !SuccessIsTrue(res) ==> r == Err(ListDevicesFailed(res))
    ensures SuccessIsTrue(res) && "result" !in res ==> r == Ok(VList([]))
    ensures SuccessIsTrue(res) && "result" in res && res["result"].VDict? ==>
      r == Ok(GetOr(res["result"].fields, "list", VList([])))
  {
    if !SuccessIsTrue(res) then Err(ListDevicesFailed(res))
    else
      match GetOr(res, "result", VDict(map[]))
      case VDict(d) => Ok(GetOr(d, "list", VList([])))
      case _ => Err(Malformed)     // `.get` on a non-dict is an AttributeError
  }

  /** `get_device_status_map` on the two answers, once connected. */
  function StatusMapFromResponses(shadowRes: Response, statusRes: Response): (r: Result<DpMap>)
    ensures !SuccessIsTrue(shadowRes) && !SuccessIsTrue(statusRes) ==> r == Ok(map[])
    ensures r.Ok? <==> ShadowFromResponse(shadowRes).Ok? && StatusFromResponse(statusRes).Ok?
    ensures r.Err? ==> r == Err(Malformed)
    ensures r.Ok? ==> forall c :: c in ShadowFromResponse(shadowRes).value ==>
      c in r.value && r.value[c] == ShadowFromResponse(shadowRes).value[c]
    ensures r.Ok? ==> forall c :: c in StatusFromResponse(statusRes).value && c !in ShadowFromResponse(shadowRes).value ==>
      c in r.value && r.value[c] == StatusFromResponse(statusRes).value[c]
    ensures r.Ok? ==> r.value.Keys == ShadowFromResponse(shadowRes).value.Keys + StatusFromResponse(statusRes).value.Keys
  {
    match ShadowFromResponse(shadowRes)
    case Err(e) => Err(e)
    case Ok(shadow) =>
      match StatusFromResponse(statusRes)
      case Err(e) => Err(e)
      case Ok(status) => Ok(MergeStatus(shadow, status))
  }

  /** The cloud client. `connected` stands for `_openapi` being set. */
  class TuyaClient {
    const endpoint: string
    const accessId: string
    const accessSecret: string
    var connected: bool
    /** Every request sent through the SDK, oldest first. */
    var requests: seq<Request>

    constructor (endpoint: string, accessId: string, accessSecret: string)
      ensures this.endpoint == endpoint && this.accessId == accessId && this.accessSecret == accessSecret
      ensures !connected && requests == []
    {
      this.endpoint, this.accessId, this.accessSecret := endpoint, accessId, accessSecret;
      connected, requests := false, [];
    }

    /**
     * Creates the SDK session and logs in. The session is stored before the
     * login, so the client counts as connected even when the login fails.
     */
    method Connect(loginOk: bool) returns (r: Outcome)
      modifies this`connected
      ensures connected
      ensures r == if loginOk then Pass else Fail(LoginFailed)
    {
      connected := true;
      r := if loginOk then Pass else Fail(LoginFailed);
    }

    method ListDevices(reply: Response) returns (r: Result<Value>)
      modifies this`requests
      ensures !connected ==> r == Err(NotConnected) && requests == old(requests)
      ensures connected ==> requests == old(requests) + [Get(DEVICES_PATH)] && r == DeviceListFromResponse(reply)
    {
      if !connected { return Err(NotConnected); }
      requests := requests + [Get(DEVICES_PATH)];
      r := DeviceListFromResponse(reply);
    }

    method GetDeviceStatus(deviceId: string, reply: Response) returns (r: Result<DpMap>)
      modifies this`requests
      ensures !connected ==> r == Err(NotConnected) && requests == old(requests)
      ensures connected ==> requests == old(requests) + [Get(StatusPath(deviceId))] && r == StatusFromResponse(reply)
    {
      if !connected { return Err(NotConnected); }
      requests := requests + [Get(StatusPath(deviceId))];
      r := StatusFromResponse(reply);
    }

    method GetDeviceShadowProperties(deviceId: string, reply: Response) returns (r: Result<DpMap>)
      modifies this`requests
      ensures !connected ==> r == Err(NotConnected) && requests == old(requests)
      ensures connected ==> requests == old(requests) + [Get(ShadowPath(deviceId))] && r == ShadowFromResponse(reply)
    {
      if !connected { return Err(NotConnected); }
      requests := requests + [Get(ShadowPath(deviceId))];
      if !SuccessIsTrue(reply) { return Ok(map[]); }
      var props := ShadowProperties(reply);
      if props.Err? { return Err(props.error); }
      r := MapProperties(props.value);
    }

    /** Shadow first, then status; an error in the first skips the second. */
    method GetDeviceStatusMap(deviceId: string, shadowReply: Response, statusReply: Response) returns (r: Result<DpMap>)
      modifies this`requests
      ensures !connected ==> r == Err(NotConnected) && requests == old(requests)
      ensures connected && ShadowFromResponse(shadowReply).Err? ==>
        requests == old(requests) + [Get(ShadowPath(deviceId))]
      ensures connected && ShadowFromResponse(shadowReply).Ok? ==>
        requests == old(requests) + [Get(ShadowPath(deviceId)), Get(StatusPath(deviceId))]
      ensures connected ==> r == StatusMapFromResponses(shadowReply, statusReply)
    {
      var shadow := GetDeviceShadowProperties(deviceId, shadowReply);
      if shadow.Err? { return Err(shadow.error); }
      var status := GetDeviceStatus(deviceId, statusReply);
      if status.Err? { return Err(status.error); }
      r := Ok(MergeStatus(shadow.value, status.value));
    }

    /** Posts the batch unchanged; the answer is whether `success` is exactly true. */
    method SendCommands(deviceId: string, commands: seq<Command>, reply: Response) returns (r: Result<bool>)
      modifies this`requests
      ensures !connected ==> r == Err(NotConnected) && requests == old(requests)
      ensures connected ==> requests == old(requests) + [Post(CommandsPath(deviceId), Payload(commands))]
      ensures connected ==> r == Ok(SuccessIsTrue(reply))
    {
      if !connected { return Err(NotConnected); }
      var payload := Payload(commands);
      requests := requests + [Post(CommandsPath(deviceId), payload)];
      r := Ok(SuccessIsTrue(reply));
    }
  }
}
