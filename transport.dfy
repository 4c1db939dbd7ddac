/** nodes/Ewelink/shared/transport.ts: turning a vendor answer into its data
    or a node API error, and the table of vendor error codes. */
module Transport {
  import opened Wrappers
  import Js
  import Text
  import Decimal

  /** `EwelinkApiResponse`: `{error, msg, data}`. */
  datatype ApiResponse = ApiResponse(error: int, msg: string, data: Js.Value)

  /** The fields of the `NodeApiError` thrown, with the item it belongs to. */
  datatype NodeApiError = NodeApiError(message: string, description: string, httpCode: string, itemIndex: nat)

  /** `handleApiResponse(context, response, itemIndex)`: the data of a zero
      `error`, otherwise an error whose message is `msg` (or
      `eWeLink API error: <code>` when `msg` is empty) and whose description
      and HTTP code carry the code in decimal. */
  function HandleApiResponse(response: ApiResponse, itemIndex: nat): (r: Result<Js.Value, NodeApiError>)
    ensures r.Success? <==> response.error == 0
    ensures r.Success? ==> r.value == response.data
    ensures r.Failure? ==>
              && r.error.itemIndex == itemIndex
              && r.error.message == (if response.msg != "" then response.msg
                                     else "eWeLink API error: " + Decimal.IntToString(response.error))
              && r.error.description == "Error code: " + Decimal.IntToString(response.error)
              && r.error.httpCode == Decimal.IntToString(response.error)
  {
    if response.error != 0 then
      var code := Decimal.IntToString(response.error);
      Failure(NodeApiError(
        if response.msg != "" then response.msg else "eWeLink API error: " + code,
        "Error code: " + code,
        code,
        itemIndex))
    else Success(response.data)
  }

  /** The HTTP code of the error, the code written in decimal, reads back as
      the vendor's code. */
  lemma HttpCodeReadsBack(response: ApiResponse, itemIndex: nat)
    requires response.error != 0
    ensures HandleApiResponse(response, itemIndex).Failure?
    ensures Decimal.ParseInt(HandleApiResponse(response, itemIndex).error.httpCode) == Some(response.error)
  {
    Decimal.ParseIntOfIntToString(response.error);
  }

  /** Two answers with different non-zero codes give different HTTP codes. */
  lemma HttpCodeDistinguishes(a: ApiResponse, b: ApiResponse, itemIndex: nat)
    requires a.error != 0 && b.error != 0 && a.error != b.error
    ensures HandleApiResponse(a, itemIndex).error.httpCode != HandleApiResponse(b, itemIndex).error.httpCode
  {
    HttpCodeReadsBack(a, itemIndex);
    HttpCodeReadsBack(b, itemIndex);
  }

  /** `ERROR_CODES`. */
  const ErrorCodes: map<int, string> := map[
    0 := "Success",
    400 := "Bad request - parameter error",
    401 := "Unauthorized - access token invalid or expired",
    402 := "Access token expired",
    403 := "Forbidden - no permission",
    404 := "Resource not found",
    406 := "Denied due to rate limiting",
    500 := "Internal server error",
    10001 := "App ID invalid",
    10002 := "App not authorized",
    10003 := "Account already exists",
    10004 := "Account not found",
    10005 := "Password incorrect",
    10006 := "Verification code error",
    10007 := "Verification code expired",
    10010 := "Device offline",
    10011 := "Device not found",
    10012 := "Family not found",
    10013 := "Room not found",
    10014 := "No permission for this operation"
  ]

  const UnknownPrefix: string := "Unknown error: "

  /** `getErrorMessage(code)`: the table entry, or `Unknown error: <code>`. */
  function GetErrorMessage(code: int): (m: string)
    ensures code in ErrorCodes ==> m == ErrorCodes[code]
    ensures code !in ErrorCodes ==> m == UnknownPrefix + Decimal.IntToString(code)
  {
    if code in ErrorCodes && ErrorCodes[code] != "" then ErrorCodes[code]
    else UnknownPrefix + Decimal.IntToString(code)
  }

  /** The table has exactly the twenty documented codes. */
  lemma TableCodes()
    ensures ErrorCodes.Keys == {0, 400, 401, 402, 403, 404, 406, 500,
                                10001, 10002, 10003, 10004, 10005, 10006, 10007,
                                10010, 10011, 10012, 10013, 10014}
  {
  }

  /** No entry of the table reads like the fallback. */
  lemma EntriesAreNotFallbacks(code: int)
    requires code in ErrorCodes
    ensures |ErrorCodes[code]| >= 3 && (ErrorCodes[code][0] != 'U' || ErrorCodes[code][2] != 'k')
  {
    TableCodes();
    if code == 0 { assert ErrorCodes[code] == ErrorCodes[0]; }
    else if code == 400 { assert ErrorCodes[code] == ErrorCodes[400]; }
    else if code == 401 { assert ErrorCodes[code] == ErrorCodes[401]; }
    else if code == 402 { assert ErrorCodes[code] == ErrorCodes[402]; }
    else if code == 403 { assert ErrorCodes[code] == ErrorCodes[403]; }
    else if code == 404 { assert ErrorCodes[code] == ErrorCodes[404]; }
    else if code == 406 { assert ErrorCodes[code] == ErrorCodes[406]; }
    else if code == 500 { assert ErrorCodes[code] == ErrorCodes[500]; }
    else if code == 10001 { assert ErrorCodes[code] == ErrorCodes[10001]; }
    else if code == 10002 { assert ErrorCodes[code] == ErrorCodes[10002]; }
    else if code == 10003 { assert ErrorCodes[code] == ErrorCodes[10003]; }
    else if code == 10004 { assert ErrorCodes[code] == ErrorCodes[10004]; }
    else if code == 10005 { assert ErrorCodes[code] == ErrorCodes[10005]; }
    else if code == 10006 { assert ErrorCodes[code] == ErrorCodes[10006]; }
    else if code == 10007 { assert ErrorCodes[code] == ErrorCodes[10007]; }
    else if code == 10010 { assert ErrorCodes[code] == ErrorCodes[10010]; }
    else if code == 10011 { assert ErrorCodes[code] == ErrorCodes[10011]; }
    else if code == 10012 { assert ErrorCodes[code] == ErrorCodes[10012]; }
    else if code == 10013 { assert ErrorCodes[code] == ErrorCodes[10013]; }
    else { assert code == 10014; }
  }

  /** A message is never empty, and it is the fallback exactly for the codes
      outside the table, in which case it ends with the code in decimal. */
  lemma ErrorMessageShape(code: int)
    ensures GetErrorMessage(code) != ""
    ensures Text.StartsWith(GetErrorMessage(code), UnknownPrefix) <==> code !in ErrorCodes
    ensures code !in ErrorCodes ==>
              Decimal.ParseInt(GetErrorMessage(code)[|UnknownPrefix|..]) == Some(code)
  {
    var m := GetErrorMessage(code);
    if code in ErrorCodes {
      EntriesAreNotFallbacks(code);
      assert m[0] != UnknownPrefix[0] || m[2] != UnknownPrefix[2];
    } else {
      assert m[..|UnknownPrefix|] == UnknownPrefix;
      assert m[|UnknownPrefix|..] == Decimal.IntToString(code);
      Decimal.ParseIntOfIntToString(code);
    }
  }
}
