/** nodes/Ewelink/resources/device/execute.ts: the eight device operations, as
    the requests they send and the output they shape from the answers. */
module DeviceResource {
  import opened Wrappers
  import opened Js
  import Utils
  import opened Execution

  /** `value || undefined`: an empty string (or any falsy value) is not sent. */
  function OrUndefined(v: Value): (r: Value)
    ensures Truthy(v) ==> r == v
    ensures !Truthy(v) ==> r == Undefined
  {
    Or(v, Undefined)
  }

  /** The argument of `getAllThingsAllPages` (`returnAll`) or of `getAllThings`
      (with `num: limit`). */
  function GetAllRequest(familyId: Value, lang: Value, returnAll: Value, limit: Value): (r: Request)
    ensures Truthy(returnAll) ==> r == Request("device.getAllThingsAllPages",
                                             Obj(map["familyId" := OrUndefined(familyId), "lang" := lang]))
    ensures !Truthy(returnAll) ==> r == Request("device.getAllThings",
                                              Obj(map["familyId" := OrUndefined(familyId), "lang" := lang, "num" := limit]))
  {
    if Truthy(returnAll) then
      Request("device.getAllThingsAllPages", Obj(map["familyId" := OrUndefined(familyId), "lang" := lang]))
    else
      Request("device.getAllThings", Obj(map["familyId" := OrUndefined(familyId), "lang" := lang, "num" := limit]))
  }

  /** The output of a successful `getAll`: the devices of the thing list, or
      one debug item when there are none. */
  function GetAllDevices(response: Value, operation: string): (r: Result<Value, string>)
    requires Get(response, "error") == Num(0)
    ensures var thingList := Or(Get(Get(response, "data"), "thingList"), Arr([]));
      && (Utils.ThingItems(thingList).Failure? ==> r == Failure(Utils.ThingItems(thingList).error))
      && (Utils.ThingItems(thingList).Success? ==>
            var devices := Utils.ExtractDevices(Utils.ThingItems(thingList).value);
            && r.Success? && r.value.Arr?
            && (|devices| > 0 ==> r.value.elems == devices)
            && (|devices| == 0 ==> r.value.elems == [NoDevicesItem(response, operation, |thingList.elems|)]))
  {
    var data := Get(response, "data");
    var thingList := Or(Get(data, "thingList"), Arr([]));
    var things :- Utils.ThingItems(thingList);
    var devices := Utils.ExtractDevices(things);
    if |devices| > 0 then Success(Arr(devices))
    else Success(Arr([NoDevicesItem(response, operation, Length(thingList))]))
  }

  /** The debug item of a `getAll` that found no device: `total` falls back to 0. */
  function NoDevicesItem(response: Value, operation: string, thingListLength: nat): (r: Value)
    ensures Get(Get(r, "_debug"), "info") == Str("No devices found")
    ensures Truthy(Get(Get(response, "data"), "total")) ==>
              Get(Get(r, "_debug"), "total") == Get(Get(response, "data"), "total")
    ensures !Truthy(Get(Get(response, "data"), "total")) ==> Get(Get(r, "_debug"), "total") == Num(0)
    ensures Get(Get(r, "_debug"), "thingListLength") == Num(thingListLength)
    ensures Get(r, "_rawResponse") == response
  {
    Obj(map[
      "_debug" := Obj(map[
        "operation" := Str(operation),
        "info" := Str("No devices found"),
        "total" := Or(Get(Get(response, "data"), "total"), Num(0)),
        "thingListLength" := Num(thingListLength)]),
      "_rawResponse" := response])
  }

  /** The request of `get`: one thing of type 1. */
  function GetRequest(deviceId: Value): (r: Request)
    ensures r.call == "device.getThings" && r.body.Obj? && r.body.fields.Keys == {"thingList"}
    ensures var things := r.body.fields["thingList"];
      && things.Arr? && |things.elems| == 1
      && Get(things.elems[0], "itemType") == Num(1) && Get(things.elems[0], "id") == deviceId
  {
    Request("device.getThings", Obj(map["thingList" := Arr([Obj(map["itemType" := Num(1), "id" := deviceId])])]))
  }

  /** The output of a successful `get`: `{_debug: {operation}, ...itemData}`
      of the first thing, where reading `thingList` of missing data throws. */
  function GetOutput(response: Value, operation: string): (r: Result<Value, string>)
    ensures Get(response, "data").Undefined? || Get(response, "data").Null? <==> r.Failure?
    ensures r.Success? ==>
              var itemData := Get(At(Get(Get(response, "data"), "thingList"), 0), "itemData");
              && r.value.Obj? && "_debug" in r.value.fields
              && r.value.fields.Keys == {"_debug"} + Spread(Or(itemData, Obj(map[]))).Keys
              && (forall key :: key in Spread(Or(itemData, Obj(map[]))) ==>
                    key in r.value.fields && r.value.fields[key] == Spread(Or(itemData, Obj(map[])))[key])
              && ("_debug" !in Spread(Or(itemData, Obj(map[]))) ==> r.value.fields["_debug"] == Obj(map["operation" := Str(operation)]))
  {
    var thingList :- Member(Get(response, "data"), "thingList");
    var itemData := Get(At(thingList, 0), "itemData");
    Success(Obj(map["_debug" := Obj(map["operation" := Str(operation)])] + Spread(Or(itemData, Obj(map[])))))
  }

  /** The params of `setStatus`: the switch params first, the parsed
      additional params over them. */
  function SetStatusParams(switchState: Value, outlet: Value, additionalParams: Value,
                           parse: string -> Option<Value>): (r: Value)
    ensures r.Obj?
    ensures var extra := Spread(Utils.ParseDeviceParams(additionalParams, parse));
      var base := Utils.FormatSwitchParams(switchState, OutletOf(outlet)).fields;
      && (forall key :: key in extra ==> key in r.fields && r.fields[key] == extra[key])
      && (forall key :: key in base && key !in extra ==> key in r.fields && r.fields[key] == base[key])
      && (forall key :: key in r.fields ==> key in base || key in extra)
  {
    var baseParams := Utils.FormatSwitchParams(switchState, OutletOf(outlet));
    var extraParams := Utils.ParseDeviceParams(additionalParams, parse);
    Obj(Spread(baseParams) + Spread(extraParams))
  }

  /** The numeric outlet parameter, `None` for `undefined`. */
  function OutletOf(outlet: Value): (r: Option<int>)
    ensures outlet.Num? ==> r == Some(outlet.n)
    ensures !outlet.Num? ==> r.None?
  {
    if outlet.Num? then Some(outlet.n) else None
  }

  /** With the default `{}` for the additional params, the device receives
      exactly the switch params. */
  lemma SetStatusWithoutExtras(switchState: Value, outlet: Value, parse: string -> Option<Value>)
    requires parse("{}") == Some(Obj(map[]))
    ensures SetStatusParams(switchState, outlet, Str("{}"), parse) == Utils.FormatSwitchParams(switchState, OutletOf(outlet))
  {
    var base := Utils.FormatSwitchParams(switchState, OutletOf(outlet));
    assert Spread(base) + map[] == base.fields;
  }

  /** The request of `update`: an empty new name or room is sent as `undefined`. */
  function UpdateRequest(deviceId: Value, newName: Value, newRoomId: Value): (r: Request)
    ensures r.body.Obj? && r.body.fields.Keys == {"deviceId", "newName", "newRoomId"}
    ensures newName == Str("") ==> r.body.fields["newName"] == Undefined
    ensures newRoomId == Str("") ==> r.body.fields["newRoomId"] == Undefined
    ensures Truthy(newName) ==> r.body.fields["newName"] == newName
    ensures Truthy(newRoomId) ==> r.body.fields["newRoomId"] == newRoomId
  {
    Request("device.setDeviceInfo", Obj(map[
      "deviceId" := deviceId, "newName" := OrUndefined(newName), "newRoomId" := OrUndefined(newRoomId)]))
  }

  /** The `user` of `share`: the country code and, by the share method, the
      e-mail address or the phone number (whichever parameter is read). */
  function ShareUser(inv: Invocation, i: nat, shareMethod: Value, countryCode: Value): (r: Result<Value, string>)
    ensures shareMethod == Str("email") ==>
              r == (var email :- RequiredParam(inv, i, "email"); Success(Obj(map["countryCode" := countryCode, "email" := email])))
    ensures shareMethod != Str("email") ==>
              r == (var phone :- RequiredParam(inv, i, "phoneNumber"); Success(Obj(map["countryCode" := countryCode, "phoneNumber" := phone])))
  {
    if shareMethod == Str("email") then
      var email :- RequiredParam(inv, i, "email");
      Success(Obj(map["countryCode" := countryCode, "email" := email]))
    else
      var phone :- RequiredParam(inv, i, "phoneNumber");
      Success(Obj(map["countryCode" := countryCode, "phoneNumber" := phone]))
  }

  const Operations: set<string> := {"getAll", "get", "getStatus", "setStatus", "getHistory", "delete", "update", "share"}

  /** The body of the `try` for item `i`: the `switch` on the operation. */
  function DeviceItem(inv: Invocation, i: nat): (r: Result<Value, string>)
    ensures inv.operation !in Operations ==> r == Failure("Unknown operation: " + inv.operation)
  {
    var operation := inv.operation;
    if operation == "getAll" then
      var familyId := Param(inv, i, "familyId", Str(""));
      var lang := Param(inv, i, "lang", Str("en"));
      var returnAll := Param(inv, i, "returnAll", Bool(true));
      var limit := if Truthy(returnAll) then Undefined else Param(inv, i, "limit", Num(30));
      var response :- Call(inv, i, GetAllRequest(familyId, lang, returnAll, limit));
      var error :- Member(response, "error");
      if error == Num(0) then GetAllDevices(response, operation)
      else Success(SafeResponse(response, operation, map["familyId" := familyId, "lang" := lang, "returnAll" := returnAll]))
    else if operation == "get" then
      var deviceId :- RequiredParam(inv, i, "deviceId");
      var response :- Call(inv, i, GetRequest(deviceId));
      var error :- Member(response, "error");
      if error == Num(0) then GetOutput(response, operation)
      else Success(SafeResponse(response, operation, map["deviceId" := deviceId]))
    else if operation == "getStatus" then
      var deviceId :- RequiredParam(inv, i, "deviceId");
      var params := Param(inv, i, "params", Str(""));
      var response :- Call(inv, i, Request("device.getThingStatus", Obj(map[
        "type" := Num(1), "id" := deviceId, "params" := OrUndefined(params)])));
      Success(SafeResponse(response, operation, map["deviceId" := deviceId, "params" := params]))
    else if operation == "setStatus" then
      var deviceId :- RequiredParam(inv, i, "deviceId");
      var switchState :- RequiredParam(inv, i, "switchState");
      var outlet := Param(inv, i, "outlet", Num(0));
      var additionalParams := Param(inv, i, "additionalParams", Str("{}"));
      var finalParams := SetStatusParams(switchState, outlet, additionalParams, inv.ctx.parseJson);
      var response :- Call(inv, i, Request("device.setThingStatus", Obj(map[
        "type" := Num(1), "id" := deviceId, "params" := finalParams])));
      Success(SafeResponse(response, operation, map[
        "deviceId" := deviceId, "switchState" := switchState, "outlet" := outlet, "sentParams" := finalParams]))
    else if operation == "getHistory" then
      var deviceId :- RequiredParam(inv, i, "deviceId");
      var num := Param(inv, i, "num", Num(30));
      var response :- Call(inv, i, Request("device.getOperationHistory", Obj(map["deviceId" := deviceId, "num" := num])));
      Success(SafeResponse(response, operation, map["deviceId" := deviceId, "num" := num]))
    else if operation == "delete" then
      var deviceId :- RequiredParam(inv, i, "deviceId");
      var response :- Call(inv, i, Request("device.delDevice", Obj(map["id" := deviceId])));
      Success(SafeResponse(response, operation, map["deviceId" := deviceId]))
    else if operation == "update" then
      var deviceId :- RequiredParam(inv, i, "deviceId");
      var newName := Param(inv, i, "newName", Str(""));
      var newRoomId := Param(inv, i, "newRoomId", Str(""));
      var response :- Call(inv, i, UpdateRequest(deviceId, newName, newRoomId));
      Success(SafeResponse(response, operation, map["deviceId" := deviceId, "newName" := newName, "newRoomId" := newRoomId]))
    else if operation == "share" then
      var deviceId :- RequiredParam(inv, i, "deviceId");
      var shareMethod :- RequiredParam(inv, i, "shareMethod");
      var countryCode :- RequiredParam(inv, i, "countryCode");
      var permit := Param(inv, i, "permit", Num(1));
      var user :- ShareUser(inv, i, shareMethod, countryCode);
      var response :- Call(inv, i, Request("device.share", Obj(map[
        "user" := user, "deviceidList" := Arr([deviceId]), "permit" := permit])));
      Success(SafeResponse(response, operation, map["deviceId" := deviceId, "shareMethod" := shareMethod, "permit" := permit]))
    else
      Failure("Unknown operation: " + operation)
  }

  /** An operation the node does not know fails every item with the same
      message, before any parameter is read or any call is made. */
  lemma UnknownOperationFails(inv: Invocation, i: nat, ctx2: Context)
    requires inv.operation !in Operations
    ensures DeviceItem(inv, i) == DeviceItem(Invocation(ctx2, inv.operation, inv.token), i)
    ensures DeviceItem(inv, i) == Failure("Unknown operation: " + inv.operation)
  {
  }

  /** A failing SDK call fails the item with the call's message. */
  lemma DeleteCallFailure(inv: Invocation, i: nat)
    requires inv.operation == "delete"
    requires inv.ctx.param(i, "deviceId").Some?
    requires inv.ctx.vendor(i, inv.token, Request("device.delDevice", Obj(map["id" := inv.ctx.param(i, "deviceId").value]))).Threw?
    ensures DeviceItem(inv, i) ==
              Failure(inv.ctx.vendor(i, inv.token, Request("device.delDevice", Obj(map["id" := inv.ctx.param(i, "deviceId").value]))).message)
  {
  }

  /** `getAll` with an answer listing no device, and a `total` it does not
      give, yields the single debug item with `total` 0. */
  lemma GetAllWithoutDevices(response: Value, operation: string)
    requires Get(response, "error") == Num(0)
    requires Get(Get(response, "data"), "thingList") == Arr([])
    requires Get(Get(response, "data"), "total") == Undefined
    ensures GetAllDevices(response, operation).Success?
    ensures var out := GetAllDevices(response, operation).value;
      && out.Arr? && |out.elems| == 1
      && Get(Get(out.elems[0], "_debug"), "info") == Str("No devices found")
      && Get(Get(out.elems[0], "_debug"), "total") == Num(0)
      && Get(Get(out.elems[0], "_debug"), "thingListLength") == Num(0)
  {
    assert Utils.ThingItems(Arr([])) == Success([]);
  }

  /** `setStatus` sends the switch params overlaid by the additional params
      and, when the call resolves, reports its answer through `safeResponse`
      with what was sent. */
  lemma SetStatusOutcome(inv: Invocation, i: nat, response: Value)
    requires inv.operation == "setStatus"
    requires inv.ctx.param(i, "deviceId").Some? && inv.ctx.param(i, "switchState").Some?
    requires var params := SetStatusParams(inv.ctx.param(i, "switchState").value, Param(inv, i, "outlet", Num(0)),
                                           Param(inv, i, "additionalParams", Str("{}")), inv.ctx.parseJson);
      inv.ctx.vendor(i, inv.token, Request("device.setThingStatus", Obj(map[
        "type" := Num(1), "id" := inv.ctx.param(i, "deviceId").value, "params" := params]))) == Returned(response)
    ensures DeviceItem(inv, i).Success?
    ensures var out := DeviceItem(inv, i).value;
      var debug := DebugOf(response, "setStatus", map[
        "deviceId" := inv.ctx.param(i, "deviceId").value, "switchState" := inv.ctx.param(i, "switchState").value,
        "outlet" := Param(inv, i, "outlet", Num(0)),
        "sentParams" := SetStatusParams(inv.ctx.param(i, "switchState").value, Param(inv, i, "outlet", Num(0)),
                                        Param(inv, i, "additionalParams", Str("{}")), inv.ctx.parseJson)]);
      Get(response, "error") != Num(0) ==> out == Obj(map["_debug" := debug, "_rawResponse" := response])
  {
  }

  /** `getAll` with the default `familyId` (the empty string) asks for the
      things of every family: the request carries `familyId: undefined`. */
  lemma GetAllDefaultFamily(inv: Invocation, i: nat)
    requires inv.operation == "getAll"
    requires inv.ctx.param(i, "familyId").None? || inv.ctx.param(i, "familyId") == Some(Str(""))
    ensures var returnAll := Param(inv, i, "returnAll", Bool(true));
      var request := GetAllRequest(Param(inv, i, "familyId", Str("")), Param(inv, i, "lang", Str("en")), returnAll,
                                   if Truthy(returnAll) then Undefined else Param(inv, i, "limit", Num(30)));
      request.body.Obj? && request.body.fields["familyId"] == Undefined
  {
  }

  /** `executeDeviceOperation(context, operation, items)` for `n` items. */
  method ExecuteDeviceOperation(ctx: Context, operation: string, n: nat, setup: ClientSetup, stack: Value)
    returns (e: RunResult)
    ensures var c := Client.CredentialsOf(setup.stored, setup.parseCredentials);
      && (c.Failure? ==> e == Completed([InitFailureItem(operation, c.error, stack)]))
      && (c.Success? ==> e == Run(DeviceItem, Invocation(ctx, operation, Client.ClientToken(c.value, setup.now, setup.refresh)), n))
  {
    e := ExecuteResource(DeviceItem, ctx, operation, n, setup, stack);
  }
}
