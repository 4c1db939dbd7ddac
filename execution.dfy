/** What the three resource executors (the `execute.ts` of the device, home and group resources)
    have in common: the host and vendor they talk to, `safeResponse`, the
    client-initialisation short-circuit, and the loop over the input items
    with its `continueOnFail` rule. */
module Execution {
  import opened Wrappers
  import opened Js
  import Text
  import Client

  /** A call into the vendor SDK: which method (`device.getThings`, ...) and
      the argument object the code builds. */
  datatype Request = Request(call: string, body: Value)

  /** What an SDK call does: it throws with a message, or resolves to a value. */
  datatype VendorAnswer = Threw(message: string) | Returned(response: Value)

  /** The n8n host and the vendor during one execution: `param(i, name)` is
      the node parameter for item `i` (`None`: not set), `vendor(i, at,
      request)` the answer to a call made for item `i` by a client holding
      the access token `at`, `parseJson` is `JSON.parse` (`None` when it
      throws), `continueOnFail` the node setting. */
  datatype Context = Context(
    param: (nat, string) -> Option<Value>,
    vendor: (nat, Option<string>, Request) -> VendorAnswer,
    parseJson: string -> Option<Value>,
    continueOnFail: bool)

  /** What the client initialisation depends on (see module Client). */
  datatype ClientSetup = ClientSetup(
    stored: Result<Client.CredentialsField, string>,
    parseCredentials: string -> Result<Client.CredentialsData, string>,
    now: int,
    refresh: Option<string> -> Client.RefreshAnswer)

  /** One run of one operation: the context, the operation name and the
      access token of the client that was set up. */
  datatype Invocation = Invocation(ctx: Context, operation: string, token: Option<string>)

  /** The message n8n throws when a parameter asked for without a fallback is not set. */
  const MissingParameter: string := "Could not get parameter"

  /** `getNodeParameter(name, i, fallback)`. */
  function Param(inv: Invocation, i: nat, name: string, fallback: Value): (v: Value)
    ensures inv.ctx.param(i, name).None? ==> v == fallback
    ensures inv.ctx.param(i, name).Some? ==> v == inv.ctx.param(i, name).value
  {
    inv.ctx.param(i, name).GetOr(fallback)
  }

  /** `getNodeParameter(name, i)`, which throws when the parameter is not set. */
  function RequiredParam(inv: Invocation, i: nat, name: string): (r: Result<Value, string>)
    ensures r.Success? <==> inv.ctx.param(i, name).Some?
    ensures r.Success? ==> r.value == inv.ctx.param(i, name).value
    ensures r.Failure? ==> r.error == MissingParameter
  {
    match inv.ctx.param(i, name)
    case Some(v) => Success(v)
    case None => Failure(MissingParameter)
  }

  /** `await client.<call>(body)` for item `i`. */
  function Call(inv: Invocation, i: nat, request: Request): (r: Result<Value, string>)
    ensures inv.ctx.vendor(i, inv.token, request).Threw? <==> r.Failure?
    ensures r.Failure? ==> r.error == inv.ctx.vendor(i, inv.token, request).message
    ensures r.Success? ==> r.value == inv.ctx.vendor(i, inv.token, request).response
  {
    match inv.ctx.vendor(i, inv.token, request)
    case Threw(m) => Failure(m)
    case Returned(v) => Success(v)
  }

  /** `s.split(',').map((x) => x.trim())` for the parameter `name`: a string is
      split on commas and each piece trimmed; reading `split` of `undefined`
      or `null` is a TypeError, and so is calling it on any other value. */
  function CommaList(v: Value, name: string): (r: Result<Value, string>)
    ensures v.Undefined? ==> r == Failure(CannotRead("undefined", "split"))
    ensures v.Null? ==> r == Failure(CannotRead("null", "split"))
    ensures !v.Str? && !v.Undefined? && !v.Null? ==> r == Failure(name + ".split is not a function")
    ensures v.Str? ==> r.Success? && r.value.Arr?
    ensures v.Str? ==> |r.value.elems| == Text.Count(v.s, ',') + 1
    ensures v.Str? ==> forall k :: 0 <= k < |r.value.elems| ==>
              r.value.elems[k] == Str(Text.Trim(Text.Split(v.s, ',')[k]))
  {
    match v
    case Str(s) =>
      var pieces := Text.Split(s, ',');
      Success(Arr(seq(|pieces|, k requires 0 <= k < |pieces| => Str(Text.Trim(pieces[k])))))
    case Undefined => Failure(CannotRead("undefined", "split"))
    case Null => Failure(CannotRead("null", "split"))
    case _ => Failure(name + ".split is not a function")
  }

  /** The strings of `pieces` as values. */
  function Strs(pieces: seq<string>): (r: seq<Value>)
    ensures |r| == |pieces|
    ensures forall k :: 0 <= k < |r| ==> r[k] == Str(pieces[k])
  {
    seq(|pieces|, k requires 0 <= k < |pieces| => Str(pieces[k]))
  }

  /** Pieces already free of surrounding whitespace come through unchanged,
      so the list is the parameter split on commas (and joins back to it). */
  lemma CommaListKeepsTrimmedPieces(s: string, name: string)
    requires forall k :: 0 <= k < |Text.Split(s, ',')| ==> Text.Trim(Text.Split(s, ',')[k]) == Text.Split(s, ',')[k]
    ensures CommaList(Str(s), name) == Success(Arr(Strs(Text.Split(s, ','))))
    ensures Text.Join(Text.Split(s, ','), ',') == s
  {
    var pieces := Text.Split(s, ',');
    var elems := CommaList(Str(s), name).value.elems;
    assert |elems| == |pieces|;
    forall k | 0 <= k < |elems|
      ensures elems[k] == Strs(pieces)[k]
    {
      assert elems[k] == Str(Text.Trim(pieces[k]));
    }
    assert elems == Strs(pieces);
    Text.JoinSplit(s, ',');
  }

  // ---------------------------------------------------------------------------
  // safeResponse

  /** The `_debug` object of `safeResponse`: the operation, the answer's
      `error`, `msg` and `status`, then the extra fields. */
  function DebugOf(response: Value, operation: string, extra: map<string, Value>): Value {
    Obj(map["operation" := Str(operation), "error" := Get(response, "error"),
            "msg" := Get(response, "msg"), "status" := Get(response, "status")] + extra)
  }

  /** The fields of `raw.data || {}`, the part merged in for a successful answer. */
  function DataFields(response: Value): map<string, Value> {
    Spread(Or(Get(response, "data"), Obj(map[])))
  }

  /** `safeResponse(response, operation, extra)`: `_debug` and `_rawResponse`,
      then, only when `raw?.error === 0`, the fields of the data, which are
      spread last and so win over the first two on a clash. */
  function SafeResponse(response: Value, operation: string, extra: map<string, Value>): (r: Value)
    ensures r.Obj? && "_debug" in r.fields && "_rawResponse" in r.fields
    ensures Get(response, "error") != Num(0) ==>
              r.fields == map["_debug" := DebugOf(response, operation, extra), "_rawResponse" := response]
    ensures Get(response, "error") == Num(0) ==>
              && (forall key :: key in DataFields(response) ==> key in r.fields && r.fields[key] == DataFields(response)[key])
              && r.fields.Keys == DataFields(response).Keys + {"_debug", "_rawResponse"}
              && ("_debug" !in DataFields(response) ==> r.fields["_debug"] == DebugOf(response, operation, extra))
              && ("_rawResponse" !in DataFields(response) ==> r.fields["_rawResponse"] == response)
  {
    Obj(map["_debug" := DebugOf(response, operation, extra), "_rawResponse" := response]
        + (if Get(response, "error") == Num(0) then DataFields(response) else map[]))
  }

  /** Whatever the answer, the debug record names the operation and carries
      every extra field, unless successful data replaces it. */
  lemma DebugRecordsExtra(response: Value, operation: string, extra: map<string, Value>)
    requires "operation" !in extra
    requires Get(response, "error") == Num(0) ==> "_debug" !in DataFields(response)
    ensures var debug := SafeResponse(response, operation, extra).fields["_debug"];
      && Get(debug, "operation") == Str(operation)
      && (forall key :: key in extra ==> Get(debug, key) == extra[key])
  {
  }

  /** An answer whose `error` is not the number 0 never leaks its data. */
  lemma FailedAnswerHidesData(response: Value, operation: string, extra: map<string, Value>)
    requires Get(response, "error") != Num(0)
    ensures SafeResponse(response, operation, extra).fields.Keys == {"_debug", "_rawResponse"}
  {
  }

  // ---------------------------------------------------------------------------
  // Output items and the loop

  /** An output item: its JSON and `pairedItem.item`. */
  datatype OutputItem = OutputItem(json: Value, pairedItem: nat)

  /** How an execution ends: with its output items, or by rethrowing the error
      of item `item` (the items gathered so far are then lost). */
  datatype RunResult = Completed(items: seq<OutputItem>) | Rethrown(message: string, item: nat)

  /** The `json` of the item `returnJsonArray` makes of one element: an
      element whose own `json` key is truthy is already an item and keeps that
      `json`; any other element is wrapped as the `json` of a new item. */
  function ItemJson(data: Value): (r: Value)
    ensures Truthy(Get(data, "json")) ==> r == data.fields["json"]
    ensures !Truthy(Get(data, "json")) ==> r == data
  {
    var json := Get(data, "json");
    if Truthy(json) then json else data
  }

  /** `returnJsonArray(data)`: one item per element of an array, one item for
      any other value, each with the `json` that `ItemJson` gives. */
  function JsonArray(v: Value): (r: seq<Value>)
    ensures v.Arr? ==> |r| == |v.elems| && forall k :: 0 <= k < |r| ==> r[k] == ItemJson(v.elems[k])
    ensures !v.Arr? ==> r == [ItemJson(v)]
  {
    if v.Arr? then seq(|v.elems|, k requires 0 <= k < |v.elems| => ItemJson(v.elems[k]))
    else [ItemJson(v)]
  }

  /** Data none of whose elements carries a truthy `json` key is emitted as
      it is: the elements of an array one by one, any other value whole. */
  lemma JsonArrayWithoutJsonKeys(v: Value)
    requires v.Arr? ==> forall k :: 0 <= k < |v.elems| ==> !Truthy(Get(v.elems[k], "json"))
    requires !v.Arr? ==> !Truthy(Get(v, "json"))
    ensures JsonArray(v) == if v.Arr? then v.elems else [v]
  {
    if v.Arr? {
      assert forall k :: 0 <= k < |v.elems| ==> JsonArray(v)[k] == v.elems[k];
    }
  }

  /** `constructExecutionMetaData(..., {itemData: {item: i}})`. */
  function Paired(jsons: seq<Value>, i: nat): (r: seq<OutputItem>)
    ensures |r| == |jsons|
    ensures forall k :: 0 <= k < |r| ==> r[k] == OutputItem(jsons[k], i)
  {
    seq(|jsons|, k requires 0 <= k < |jsons| => OutputItem(jsons[k], i))
  }

  /** The item emitted for a failed item when `continueOnFail()` holds. */
  function ErrorItem(message: string, i: nat): (r: OutputItem)
    ensures r.pairedItem == i
    ensures r.json.Obj? && r.json.fields.Keys == {"error"} && Get(r.json, "error") == Str(message)
  {
    OutputItem(Obj(map["error" := Str(message)]), i)
  }

  /** What one item contributes to the output when the loop goes on past it. */
  function ItemOutputs(result: Result<Value, string>, i: nat): seq<OutputItem> {
    match result
    case Success(data) => Paired(JsonArray(data), i)
    case Failure(m) => [ErrorItem(m, i)]
  }

  /** The loop over the first `n` items, where `step(inv, i)` is the body of
      the `try` for item `i` (its `responseData`, or the message it throws). */
  function Run(step: (Invocation, nat) -> Result<Value, string>, inv: Invocation, n: nat): (r: RunResult)
    ensures r.Rethrown? ==> !inv.ctx.continueOnFail && r.item < n
    decreases n
  {
    if n == 0 then Completed([])
    else
      match Run(step, inv, n - 1)
      case Rethrown(m, k) => Rethrown(m, k)
      case Completed(out) =>
        match step(inv, n - 1)
        case Success(data) => Completed(out + Paired(JsonArray(data), n - 1))
        case Failure(m) =>
          if inv.ctx.continueOnFail then Completed(out + [ErrorItem(m, n - 1)])
          else Rethrown(m, n - 1)
  }

  /** A rethrown error ends the execution: later items change nothing. */
  lemma {:induction false} RethrownStays(step: (Invocation, nat) -> Result<Value, string>, inv: Invocation, k: nat, n: nat)
    requires k <= n && Run(step, inv, k).Rethrown?
    ensures Run(step, inv, n) == Run(step, inv, k)
    decreases n - k
  {
    if k < n {
      RethrownStays(step, inv, k, n - 1);
    }
  }

  /** The `for` loop of the executors: `returnData` grows item by item, and
      an uncaught error leaves the loop at once. */
  method RunItems(step: (Invocation, nat) -> Result<Value, string>, inv: Invocation, n: nat) returns (e: RunResult)
    ensures e == Run(step, inv, n)
  {
    var returnData: seq<OutputItem> := [];
    var i := 0;
    while i < n
      invariant i <= n
      invariant Run(step, inv, i) == Completed(returnData)
      decreases n - i
    {
      var result := step(inv, i);
      match result {
        case Success(responseData) =>
          returnData := returnData + Paired(JsonArray(responseData), i);
        case Failure(message) =>
          if inv.ctx.continueOnFail {
            returnData := returnData + [ErrorItem(message, i)];
          } else {
            RethrownStays(step, inv, i + 1, n);
            return Rethrown(message, i);
          }
      }
      i := i + 1;
    }
    return Completed(returnData);
  }

  /** The outputs paired with item `i`, in order. */
  function ForItem(out: seq<OutputItem>, i: nat): seq<OutputItem>
    decreases |out|
  {
    if out == [] then []
    else (if out[0].pairedItem == i then [out[0]] else []) + ForItem(out[1..], i)
  }

  lemma {:induction false} ForItemAppend(a: seq<OutputItem>, b: seq<OutputItem>, i: nat)
    ensures ForItem(a + b, i) == ForItem(a, i) + ForItem(b, i)
    decreases |a|
  {
    if a != [] {
      assert (a + b)[1..] == a[1..] + b;
      ForItemAppend(a[1..], b, i);
    } else {
      assert a + b == b;
    }
  }

  lemma {:induction false} ForItemOther(out: seq<OutputItem>, i: nat)
    requires forall k :: 0 <= k < |out| ==> out[k].pairedItem != i
    ensures ForItem(out, i) == []
    decreases |out|
  {
    if out != [] {
      ForItemOther(out[1..], i);
    }
  }

  lemma {:induction false} ForItemSame(out: seq<OutputItem>, i: nat)
    requires forall k :: 0 <= k < |out| ==> out[k].pairedItem == i
    ensures ForItem(out, i) == out
    decreases |out|
  {
    if out != [] {
      ForItemSame(out[1..], i);
    }
  }

  lemma ItemOutputsPaired(result: Result<Value, string>, i: nat)
    ensures forall k :: 0 <= k < |ItemOutputs(result, i)| ==> ItemOutputs(result, i)[k].pairedItem == i
  {
  }

  /** One more item appends exactly its contribution. */
  lemma RunExtends(step: (Invocation, nat) -> Result<Value, string>, inv: Invocation, n: nat)
    requires n > 0 && Run(step, inv, n).Completed?
    ensures Run(step, inv, n - 1).Completed?
    ensures Run(step, inv, n).items == Run(step, inv, n - 1).items + ItemOutputs(step(inv, n - 1), n - 1)
  {
  }

  /** Every output of a completed execution is paired with one of its
      items, and the pairing never goes backwards. */
  lemma {:induction false} CompletedInOrder(step: (Invocation, nat) -> Result<Value, string>, inv: Invocation, n: nat)
    requires Run(step, inv, n).Completed?
    ensures var out := Run(step, inv, n).items;
      && (forall k :: 0 <= k < |out| ==> out[k].pairedItem < n)
      && (forall a, b :: 0 <= a < b < |out| ==> out[a].pairedItem <= out[b].pairedItem)
    decreases n
  {
    if n > 0 {
      RunExtends(step, inv, n);
      CompletedInOrder(step, inv, n - 1);
      ItemOutputsPaired(step(inv, n - 1), n - 1);
      var prev := Run(step, inv, n - 1).items;
      var added := ItemOutputs(step(inv, n - 1), n - 1);
      var out := prev + added;
      forall k | 0 <= k < |out|
        ensures out[k].pairedItem < n
      {
        if k >= |prev| { assert out[k] == added[k - |prev|]; }
      }
      forall a, b | 0 <= a < b < |out|
        ensures out[a].pairedItem <= out[b].pairedItem
      {
        if b >= |prev| {
          assert out[b] == added[b - |prev|];
          if a >= |prev| { assert out[a] == added[a - |prev|]; }
        }
      }
    }
  }

  /** A completed execution holds, for each input item and in input order,
      exactly what that item contributes: nothing is lost, duplicated,
      reordered or paired with the wrong item. */
  lemma {:induction false} CompletedOutputs(step: (Invocation, nat) -> Result<Value, string>, inv: Invocation, n: nat)
    requires Run(step, inv, n).Completed?
    ensures forall i :: 0 <= i < n ==> ForItem(Run(step, inv, n).items, i) == ItemOutputs(step(inv, i), i)
    decreases n
  {
    if n > 0 {
      RunExtends(step, inv, n);
      CompletedOutputs(step, inv, n - 1);
      CompletedInOrder(step, inv, n - 1);
      var prev := Run(step, inv, n - 1).items;
      var added := ItemOutputs(step(inv, n - 1), n - 1);
      ItemOutputsPaired(step(inv, n - 1), n - 1);
      forall i | 0 <= i < n
        ensures ForItem(prev + added, i) == ItemOutputs(step(inv, i), i)
      {
        ForItemAppend(prev, added, i);
        if i < n - 1 {
          ForItemOther(added, i);
        } else {
          ForItemOther(prev, i);
          ForItemSame(added, i);
        }
      }
    }
  }

  /** With `continueOnFail()` the loop always completes. */
  lemma {:induction false} ContinueOnFailCompletes(step: (Invocation, nat) -> Result<Value, string>, inv: Invocation, n: nat)
    requires inv.ctx.continueOnFail
    ensures Run(step, inv, n).Completed?
    decreases n
  {
    if n > 0 {
      ContinueOnFailCompletes(step, inv, n - 1);
    }
  }

  /** Without it, the execution rethrows exactly the error of the first item
      that fails, and completes exactly when no item fails. */
  lemma {:induction false} RethrowsFirstFailure(step: (Invocation, nat) -> Result<Value, string>, inv: Invocation, n: nat)
    requires !inv.ctx.continueOnFail
    ensures Run(step, inv, n).Completed? <==> forall j :: 0 <= j < n ==> step(inv, j).Success?
    ensures Run(step, inv, n).Rethrown? ==>
              var k := Run(step, inv, n).item;
              && k < n
              && step(inv, k) == Failure(Run(step, inv, n).message)
              && forall j :: 0 <= j < k ==> step(inv, j).Success?
    decreases n
  {
    if n > 0 {
      RethrowsFirstFailure(step, inv, n - 1);
    }
  }

  // ---------------------------------------------------------------------------
  // The executor

  /** The item emitted when `getEwelinkClient` throws. */
  function InitFailureItem(operation: string, message: string, stack: Value): (r: OutputItem)
    ensures r.pairedItem == 0
    ensures Get(r.json, "error") == Str(message) && Get(r.json, "stack") == stack
    ensures Get(Get(r.json, "_debug"), "error") == Str("client_init_failed")
    ensures Get(Get(r.json, "_debug"), "operation") == Str(operation)
  {
    OutputItem(Obj(map[
      "_debug" := Obj(map["operation" := Str(operation), "error" := Str("client_init_failed")]),
      "error" := Str(message),
      "stack" := stack]), 0)
  }

  /** The body shared by `executeDeviceOperation`, `executeHomeOperation` and
      `executeGroupOperation`: `n` is `items.length`, `step` the resource's
      `switch`, and `stack` the host's stack trace of an initialisation error.
      A failed initialisation gives its one error item whatever the items are. */
  method ExecuteResource(step: (Invocation, nat) -> Result<Value, string>, ctx: Context, operation: string,
                         n: nat, setup: ClientSetup, stack: Value) returns (e: RunResult)
    ensures var c := Client.CredentialsOf(setup.stored, setup.parseCredentials);
      && (c.Failure? ==> e == Completed([InitFailureItem(operation, c.error, stack)]))
      && (c.Success? ==> e == Run(step, Invocation(ctx, operation, Client.ClientToken(c.value, setup.now, setup.refresh)), n))
  {
    var result := Client.GetEwelinkClient(setup.stored, setup.parseCredentials, setup.now, setup.refresh);
    if result.Failure? {
      return Completed([InitFailureItem(operation, result.error, stack)]);
    }
    var client := result.value.0;
    e := RunItems(step, Invocation(ctx, operation, client.at), n);
  }
}
