/** nodes/Ewelink/resources/group/execute.ts: the five group operations, as
    the requests they send and the output they shape from the answers. */
module GroupResource {
  import opened Wrappers
  import opened Js
  import Text
  import Utils
  import opened Execution

  /** The output of a `getAll` whose answer has `error === 0`: the groups of
      the thing list, or one debug item when there are none; reading
      `thingList` of missing data is a TypeError. */
  function GetAllGroups(response: Value, operation: string): (r: Result<Value, string>)
    ensures var data := Get(response, "data");
      && (data.Undefined? || data.Null? ==> r.Failure?)
      && (!data.Undefined? && !data.Null? ==>
            var things := Utils.ThingItems(Or(Get(data, "thingList"), Arr([])));
            && (things.Failure? ==> r == Failure(things.error))
            && (things.Success? ==>
                  var groups := Utils.ExtractGroups(things.value);
                  && (|groups| > 0 ==> r == Success(Arr(groups)))
                  && (|groups| == 0 ==> r == Success(Arr([NoGroupsItem(response, operation)])))))
  {
    var thingList :- Member(Get(response, "data"), "thingList");
    var things :- Utils.ThingItems(Or(thingList, Arr([])));
    var groups := Utils.ExtractGroups(things);
    if |groups| > 0 then Success(Arr(groups))
    else Success(Arr([NoGroupsItem(response, operation)]))
  }

  function NoGroupsItem(response: Value, operation: string): (r: Value)
    ensures Get(Get(r, "_debug"), "info") == Str("No groups found")
    ensures Get(r, "_rawResponse") == response
  {
    Obj(map["_debug" := Obj(map["operation" := Str(operation), "info" := Str("No groups found")]),
            "_rawResponse" := response])
  }

  /** The request of `create`: the member ids split on commas and trimmed, and
      an empty family sent as `undefined`. */
  function AddGroupRequest(name: Value, mainDeviceId: Value, deviceidList: Value, familyId: Value): (r: Request)
    ensures r.call == "device.addGroup" && r.body.Obj?
    ensures r.body.fields.Keys == {"name", "mainDeviceId", "deviceidList", "familyId"}
    ensures r.body.fields["name"] == name && r.body.fields["mainDeviceId"] == mainDeviceId
    ensures r.body.fields["deviceidList"] == deviceidList
    ensures Truthy(familyId) ==> r.body.fields["familyId"] == familyId
    ensures !Truthy(familyId) ==> r.body.fields["familyId"] == Undefined
  {
    Request("device.addGroup", Obj(map[
      "name" := name, "mainDeviceId" := mainDeviceId, "deviceidList" := deviceidList,
      "familyId" := Or(familyId, Undefined)]))
  }

  /** The request of `setStatus`: always type 2 (a group) and exactly the
      switch state. */
  function SetGroupStatusRequest(groupId: Value, switchState: Value): (r: Request)
    ensures r.call == "device.setThingStatus" && r.body.Obj?
    ensures r.body.fields.Keys == {"type", "id", "params"}
    ensures r.body.fields["type"] == Num(2)
    ensures r.body.fields["id"] == groupId
    ensures r.body.fields["params"] == Obj(map["switch" := switchState])
  {
    Request("device.setThingStatus", Obj(map["type" := Num(2), "id" := groupId, "params" := Obj(map["switch" := switchState])]))
  }

  const Operations: set<string> := {"getAll", "create", "delete", "setStatus", "update"}

  /** The body of the `try` for item `i`: the `switch` on the operation. */
  function GroupItem(inv: Invocation, i: nat): (r: Result<Value, string>)
    ensures inv.operation !in Operations ==> r == Failure("Unknown operation: " + inv.operation)
  {
    var operation := inv.operation;
    if operation == "getAll" then
      var lang := Param(inv, i, "lang", Str("en"));
      var response :- Call(inv, i, Request("device.getAllThingsAllPages", Obj(map["lang" := lang])));
      var error :- Member(response, "error");
      if error == Num(0) then GetAllGroups(response, operation)
      else Success(SafeResponse(response, operation, map["lang" := lang]))
    else if operation == "create" then
      var name :- RequiredParam(inv, i, "name");
      var mainDeviceId :- RequiredParam(inv, i, "mainDeviceId");
      var deviceidListStr :- RequiredParam(inv, i, "deviceidList");
      var familyId := Param(inv, i, "familyId", Str(""));
      var deviceidList :- CommaList(deviceidListStr, "deviceidListStr");
      var response :- Call(inv, i, AddGroupRequest(name, mainDeviceId, deviceidList, familyId));
      Success(SafeResponse(response, operation, map["name" := name, "mainDeviceId" := mainDeviceId, "deviceidList" := deviceidList]))
    else if operation == "delete" then
      var groupId :- RequiredParam(inv, i, "groupId");
      var response :- Call(inv, i, Request("device.delGroup", Obj(map["id" := groupId])));
      Success(SafeResponse(response, operation, map["groupId" := groupId]))
    else if operation == "setStatus" then
      var groupId :- RequiredParam(inv, i, "groupId");
      var switchState :- RequiredParam(inv, i, "switchState");
      var response :- Call(inv, i, SetGroupStatusRequest(groupId, switchState));
      Success(SafeResponse(response, operation, map["groupId" := groupId, "switchState" := switchState]))
    else if operation == "update" then
      var groupId :- RequiredParam(inv, i, "groupId");
      var newName :- RequiredParam(inv, i, "newName");
      var response :- Call(inv, i, Request("device.setGroup", Obj(map["id" := groupId, "newName" := newName])));
      Success(SafeResponse(response, operation, map["groupId" := groupId, "newName" := newName]))
    else
      Failure("Unknown operation: " + operation)
  }

  /** `create` sends, as member ids, one trimmed id per comma-separated piece
      of the parameter. */
  lemma CreateSplitsMembers(s: string, name: Value, mainDeviceId: Value, familyId: Value)
    ensures CommaList(Str(s), "deviceidListStr").Success?
    ensures var ids := CommaList(Str(s), "deviceidListStr").value;
      var sent := AddGroupRequest(name, mainDeviceId, ids, familyId).body.fields["deviceidList"];
      && sent.Arr? && |sent.elems| == Text.Count(s, ',') + 1
      && forall k :: 0 <= k < |sent.elems| ==> sent.elems[k] == Str(Text.Trim(Text.Split(s, ',')[k]))
  {
  }

  /** A successful `getAll` whose thing list has no group yields the single
      debug item. */
  lemma GetAllWithoutGroups(response: Value, operation: string, others: seq<Value>)
    requires Get(Get(response, "data"), "thingList") == Arr(others)
    requires forall k :: 0 <= k < |others| ==> others[k].Obj? && Get(others[k], "itemType") == Num(1)
    ensures GetAllGroups(response, operation) == Success(Arr([NoGroupsItem(response, operation)]))
  {
    var things := Utils.ThingItems(Arr(others));
    assert things.Success?;
    assert forall k :: 0 <= k < |things.value| ==> !Utils.IsGroup(things.value[k]);
    Utils.KeptNone(things.value, Utils.IsGroup);
  }

  /** An operation the node does not know fails every item with the same message. */
  lemma UnknownOperationFails(inv: Invocation, i: nat)
    requires inv.operation !in Operations
    ensures GroupItem(inv, i) == Failure("Unknown operation: " + inv.operation)
  {
  }

  /** `executeGroupOperation(context, operation, items)` for `n` items. */
  method ExecuteGroupOperation(ctx: Context, operation: string, n: nat, setup: ClientSetup, stack: Value)
    returns (e: RunResult)
    ensures var c := Client.CredentialsOf(setup.stored, setup.parseCredentials);
      && (c.Failure? ==> e == Completed([InitFailureItem(operation, c.error, stack)]))
      && (c.Success? ==> e == Run(GroupItem, Invocation(ctx, operation, Client.ClientToken(c.value, setup.now, setup.refresh)), n))
  {
    e := ExecuteResource(GroupItem, ctx, operation, n, setup, stack);
  }
}
