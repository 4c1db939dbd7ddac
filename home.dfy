/** nodes/Ewelink/resources/home/execute.ts: the seven family and room
    operations, as the requests they send. */
module HomeResource {
  import opened Wrappers
  import opened Js
  import Text
  import opened Execution

  /** `roomNameListStr ? roomNameListStr.split(',').map(trim) : undefined`. */
  function RoomNameList(v: Value): (r: Result<Value, string>)
    ensures !Truthy(v) ==> r == Success(Undefined)
    ensures Truthy(v) ==> r == CommaList(v, "roomNameListStr")
    ensures v.Str? && v.s != "" ==>
              r.Success? && r.value.Arr? && |r.value.elems| == Text.Count(v.s, ',') + 1
  {
    if Truthy(v) then CommaList(v, "roomNameListStr") else Success(Undefined)
  }

  /** The request of `delete`: a falsy `deviceFamily` or `switchFamily` falls
      back to the family being deleted. */
  function DelFamilyRequest(familyId: Value, deviceFamily: Value, switchFamily: Value): (r: Request)
    ensures r.call == "home.delFamily" && r.body.Obj?
    ensures r.body.fields.Keys == {"id", "deviceFamily", "switchFamily"}
    ensures r.body.fields["id"] == familyId
    ensures r.body.fields["deviceFamily"] == (if Truthy(deviceFamily) then deviceFamily else familyId)
    ensures r.body.fields["switchFamily"] == (if Truthy(switchFamily) then switchFamily else familyId)
  {
    Request("home.delFamily", Obj(map[
      "id" := familyId, "deviceFamily" := Or(deviceFamily, familyId), "switchFamily" := Or(switchFamily, familyId)]))
  }

  /** `flag ? part : undefined` for one section of the home page. */
  function Section(flag: Value, part: Value): (r: Value)
    ensures Truthy(flag) ==> r == part
    ensures !Truthy(flag) ==> r == Undefined
  {
    if Truthy(flag) then part else Undefined
  }

  const Latest: Value := Obj(map["num" := Num(30)])

  /** The request of `homePage`: every section asked for is `{}`, except the
      things and the messages, which ask for the latest 30. */
  function HomePageRequest(getUser: Value, getFamily: Value, getThing: Value, getScene: Value, getMessage: Value): (r: Request)
    ensures r.call == "home.homePage" && r.body.Obj?
    ensures r.body.fields.Keys == {"getUser", "getFamily", "getThing", "getScene", "getMessage"}
    ensures r.body.fields["getUser"] == (if Truthy(getUser) then Obj(map[]) else Undefined)
    ensures r.body.fields["getFamily"] == (if Truthy(getFamily) then Obj(map[]) else Undefined)
    ensures r.body.fields["getThing"] == (if Truthy(getThing) then Latest else Undefined)
    ensures r.body.fields["getScene"] == (if Truthy(getScene) then Obj(map[]) else Undefined)
    ensures r.body.fields["getMessage"] == (if Truthy(getMessage) then Latest else Undefined)
  {
    Request("home.homePage", Obj(map[
      "getUser" := Section(getUser, Obj(map[])),
      "getFamily" := Section(getFamily, Obj(map[])),
      "getThing" := Section(getThing, Latest),
      "getScene" := Section(getScene, Obj(map[])),
      "getMessage" := Section(getMessage, Latest)]))
  }

  /** With the default flags the page asks for the user, the families and the
      latest 30 things, and not for scenes or messages. */
  lemma HomePageDefaults()
    ensures HomePageRequest(Bool(true), Bool(true), Bool(true), Bool(false), Bool(false)).body
            == Obj(map["getUser" := Obj(map[]), "getFamily" := Obj(map[]), "getThing" := Latest,
                       "getScene" := Undefined, "getMessage" := Undefined])
  {
  }

  const Operations: set<string> := {"getAll", "create", "delete", "update", "addRoom", "deleteRoom", "homePage"}

  /** The body of the `try` for item `i`: the `switch` on the operation. */
  function HomeItem(inv: Invocation, i: nat): (r: Result<Value, string>)
    ensures inv.operation !in Operations ==> r == Failure("Unknown operation: " + inv.operation)
  {
    var operation := inv.operation;
    if operation == "getAll" then
      var lang := Param(inv, i, "lang", Str("en"));
      var response :- Call(inv, i, Request("home.getFamily", Obj(map["lang" := lang])));
      Success(SafeResponse(response, operation, map["lang" := lang]))
    else if operation == "create" then
      var name :- RequiredParam(inv, i, "name");
      var sort := Param(inv, i, "sort", Num(1));
      var roomNameListStr := Param(inv, i, "roomNameList", Str(""));
      var roomNameList :- RoomNameList(roomNameListStr);
      var response :- Call(inv, i, Request("home.addFamily", Obj(map[
        "name" := name, "sort" := sort, "roomNameList" := roomNameList])));
      Success(SafeResponse(response, operation, map["name" := name, "sort" := sort]))
    else if operation == "delete" then
      var familyId :- RequiredParam(inv, i, "familyId");
      var deviceFamily := Param(inv, i, "deviceFamily", Str(""));
      var switchFamily := Param(inv, i, "switchFamily", Str(""));
      var response :- Call(inv, i, DelFamilyRequest(familyId, deviceFamily, switchFamily));
      Success(SafeResponse(response, operation, map["familyId" := familyId]))
    else if operation == "update" then
      var familyId :- RequiredParam(inv, i, "familyId");
      var newName :- RequiredParam(inv, i, "newName");
      var response :- Call(inv, i, Request("home.setFamily", Obj(map["id" := familyId, "newName" := newName])));
      Success(SafeResponse(response, operation, map["familyId" := familyId, "newName" := newName]))
    else if operation == "addRoom" then
      var familyId :- RequiredParam(inv, i, "familyId");
      var name :- RequiredParam(inv, i, "name");
      var sort := Param(inv, i, "sort", Num(1));
      var response :- Call(inv, i, Request("home.addRoom", Obj(map["familyId" := familyId, "name" := name, "sort" := sort])));
      Success(SafeResponse(response, operation, map["familyId" := familyId, "name" := name]))
    else if operation == "deleteRoom" then
      var roomId :- RequiredParam(inv, i, "roomId");
      var response :- Call(inv, i, Request("home.delRoom", Obj(map["id" := roomId])));
      Success(SafeResponse(response, operation, map["roomId" := roomId]))
    else if operation == "homePage" then
      var getUser := Param(inv, i, "getUser", Bool(true));
      var getFamily := Param(inv, i, "getFamily", Bool(true));
      var getThing := Param(inv, i, "getThing", Bool(true));
      var getScene := Param(inv, i, "getScene", Bool(false));
      var getMessage := Param(inv, i, "getMessage", Bool(false));
      var response :- Call(inv, i, HomePageRequest(getUser, getFamily, getThing, getScene, getMessage));
      Success(SafeResponse(response, operation, map[
        "getUser" := getUser, "getFamily" := getFamily, "getThing" := getThing,
        "getScene" := getScene, "getMessage" := getMessage]))
    else
      Failure("Unknown operation: " + operation)
  }

  /** `create` without a room list sends `roomNameList: undefined`; with one,
      the trimmed comma-separated names. */
  lemma CreateSendsRoomNames(inv: Invocation, i: nat, response: Value)
    requires inv.operation == "create" && inv.ctx.param(i, "name").Some?
    requires var rooms := RoomNameList(Param(inv, i, "roomNameList", Str("")));
      rooms.Success? &&
      inv.ctx.vendor(i, inv.token, Request("home.addFamily", Obj(map[
        "name" := inv.ctx.param(i, "name").value, "sort" := Param(inv, i, "sort", Num(1)),
        "roomNameList" := rooms.value]))) == Returned(response)
    ensures HomeItem(inv, i) == Success(SafeResponse(response, "create", map[
              "name" := inv.ctx.param(i, "name").value, "sort" := Param(inv, i, "sort", Num(1))]))
  {
  }

  /** A room list that is not a string (and not falsy) fails the item with
      the TypeError of calling `split` on it, before any call is made. */
  lemma CreateRejectsNonStringRooms(inv: Invocation, i: nat)
    requires inv.operation == "create" && inv.ctx.param(i, "name").Some?
    requires inv.ctx.param(i, "roomNameList").Some?
    requires var v := inv.ctx.param(i, "roomNameList").value; Truthy(v) && !v.Str?
    ensures HomeItem(inv, i) == Failure("roomNameListStr.split is not a function")
  {
    var v := inv.ctx.param(i, "roomNameList").value;
    assert Param(inv, i, "roomNameList", Str("")) == v;
    assert "roomNameListStr" + ".split is not a function" == "roomNameListStr.split is not a function";
  }

  /** An operation the node does not know fails every item with the same message. */
  lemma UnknownOperationFails(inv: Invocation, i: nat)
    requires inv.operation !in Operations
    ensures HomeItem(inv, i) == Failure("Unknown operation: " + inv.operation)
  {
  }

  /** `executeHomeOperation(context, operation, items)` for `n` items. */
  method ExecuteHomeOperation(ctx: Context, operation: string, n: nat, setup: ClientSetup, stack: Value)
    returns (e: RunResult)
    ensures var c := Client.CredentialsOf(setup.stored, setup.parseCredentials);
      && (c.Failure? ==> e == Completed([InitFailureItem(operation, c.error, stack)]))
      && (c.Success? ==> e == Run(HomeItem, Invocation(ctx, operation, Client.ClientToken(c.value, setup.now, setup.refresh)), n))
  {
    e := ExecuteResource(HomeItem, ctx, operation, n, setup, stack);
  }
}
