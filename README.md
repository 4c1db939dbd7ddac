# eWeLink n8n node and OAuth helper — a Dafny model

This project models the decision logic of `n8n-nodes-ewelink-v2`. That
repository is an n8n community node for the eWeLink IoT cloud. It also ships
a command-line tool that obtains OAuth tokens. The model covers five parts:

- **The OAuth helper** (`lib/oauth-helper.ts`). This covers the port of the
  redirect URI and the random `state` fixed at construction. It also covers
  the ordered checks of a callback (path, `error`, `state`, `code`, `region`),
  the mapping of the token-exchange answer, and the `server` field as a
  `NoServer / Listening / Closed` state. The promise settles only once, on
  its first settlement.
- **The CLI** (`bin/oauth-helper.js`). This covers the index-walking argument
  loop, with both `--k=v` and `--k v` forms and the help stop, and the
  required-argument check. It also covers the yes/no confirmation, the
  credentials record that is printed, and the exit code.
- **The thing-list and switch helpers** (`nodes/Ewelink/shared/utils.ts`).
- **The credential reading, token refresh, region host, and API-error
  mapping** (`nodes/Ewelink/shared/client.ts` and `transport.ts`).
- **The three per-item executors** (`nodes/Ewelink/resources/{device,home,group}/execute.ts`).
  The model covers `safeResponse`, the client-initialisation short-circuit,
  and the item loop with its `continueOnFail` rule. It also covers each
  operation's parameter shaping and the vendor request it sends.

JavaScript values are modelled by `Js.Value`: `undefined`, `null`, booleans,
integers, strings, arrays and objects. On top of that sit truthiness, `||`,
optional chaining (`?.`), property access that throws a TypeError on
`undefined` or `null`, and object spread. Every vendor SDK call is an oracle
that depends on the item index, the client's access token and the request
record the code builds. The same holds for `getToken`, for `refreshToken`,
and for the host's `getNodeParameter` and `JSON.parse`. The properties proved
are stated against any oracle.

Module layout, one file per module:

- `wrappers.dfy`: Option and Result.
- `text.dfy`: `trim`, `split`, ASCII lower-casing.
- `decimal.dfy`: integer to decimal text and back, with `parseInt`.
- `js.dfy`: JavaScript values.
- `hex.dfy`: hex encoding of the random state.
- `oauth.dfy`, `cli.dfy`, `utils.dfy`, `client.dfy` and `transport.dfy`: one
  per source file.
- `execution.dfy`: what the three executors share. The code of
  `safeResponse`, of the initialisation catch and of the loop is the same in
  all three files, so it is defined once here.
- `device.dfy`, `home.dfy` and `group.dfy`: the three resources.

## Model

| member | source | states |
|---|---|---|
| OAuth.GetPort | lib/oauth-helper.ts:42-45 | The port is never 0. An empty URL port (no port, or the scheme's default) gives 80. A port that parses to a non-zero number gives that number. |
| OAuth.GetPortOfExplicitPort | lib/oauth-helper.ts:44 | For every written port `n`, the result is `n`, or 80 when `n` is 0. |
| OAuth.OAuthHelper.constructor | lib/oauth-helper.ts:28-40 | The state is the hex encoding of the 32 random bytes, so it is 64 characters long. No server exists yet and the promise is not created. |
| Hex.Encode | lib/oauth-helper.ts:38-40 | `toString('hex')` gives two lower-case hex digits per byte. |
| OAuth.ExchangeCodeForToken | lib/oauth-helper.ts:54-72 | The call succeeds exactly when the answer has `error == 0`. A throw passes its message through. Any other answer fails with `OAuth error: ` and `msg`, or with `Unknown error`. On success the four token fields are copied, and the region is the callback's, not the config's. |
| OAuth.QueryGet | lib/oauth-helper.ts:203-206 | `searchParams.get` gives the value of the first pair with that name, and `None` exactly when the name is absent, so a repeated `state` or `code` is read from its first occurrence. |
| OAuth.Classify | lib/oauth-helper.ts:201-240 | The result is a 404 exactly when the path is not `/`. The exchange is chosen exactly when `error` is falsy, `state` equals the stored state, and `code` and `region` are both non-empty. The exchange uses the query's own code and region. Every refusal page is a failure page. |
| OAuth.ErrorWins | lib/oauth-helper.ts:208-214 | A non-empty `error` decides the outcome whatever else the query holds. The reason is `OAuth error: ` followed by `error_description`, or by `Unknown error`. |
| OAuth.StateCheckedBeforeCode | lib/oauth-helper.ts:216-223 | A missing or different state is refused with `Invalid state parameter`, whatever `code` and `region` are. |
| OAuth.CodeCheckedBeforeRegion | lib/oauth-helper.ts:225-237 | With the state matching, a missing or empty code is refused before the region is looked at. |
| OAuth.React | lib/oauth-helper.ts:198-270 | The handler always settles the promise or leaves it pending. It never puts back the state "not created". |
| OAuth.OtherPathKeepsListening | lib/oauth-helper.ts:266-269 | Any other path gets 404 `Not found`. The server stays open and the promise stays pending. |
| OAuth.CallbackAlwaysDecides | lib/oauth-helper.ts:208-265 | Every request to `/` gets status 200, closes the server and settles the promise. This includes an exchange that throws. The page reports success exactly when the promise is fulfilled, and that happens only after the four checks pass. |
| OAuth.NoExchangeUnlessAccepted | lib/oauth-helper.ts:208-240 | When a check fails, the outcome does not depend on the token exchange at all. |
| OAuth.FulfilledCarriesCallbackRegion | lib/oauth-helper.ts:240-254 | A fulfilled promise holds the tokens of the exchange made with the callback's code and region, plus that region. |
| OAuth.Close | lib/oauth-helper.ts:212 | `server?.close()` leaves no server listening. It does nothing without a server and keeps the port. |
| OAuth.CloseIdempotent | lib/oauth-helper.ts:251-252 | Closing twice is the same as closing once. |
| OAuth.OAuthHelper.Start | lib/oauth-helper.ts:194-198 | A redirect URI that does not parse rejects the promise. Otherwise the server listens on `GetPort` and the promise is pending. |
| OAuth.OAuthHelper.Settle | lib/oauth-helper.ts:251-254 | A promise settles once. Later `resolve` or `reject` calls change nothing. |
| OAuth.OAuthHelper.CloseServer | lib/oauth-helper.ts:208-237 | The new server state is `Close` of the old one. |
| OAuth.OAuthHelper.HandleRequest | lib/oauth-helper.ts:198-270 | The early-return handler answers with `React`'s response. It closes the server exactly when `React` says so, and settles the promise only if the promise is still pending. |
| OAuth.TwoCallbacks | lib/oauth-helper.ts:194-270 | A second callback to the same helper, handled after the first has finished, cannot change the settlement of the first. The server ends closed on the configured port. |
| Cli.EqValue | bin/oauth-helper.js:27-28 | `arg.split('=')[1]` of an argument `--k=...` never contains `=`. |
| Cli.StepOf | bin/oauth-helper.js:26-46 | One pass of the `if` ladder. It consumes the next argument only when that argument exists, is non-empty and does not start with `--`. |
| Cli.Walk | bin/oauth-helper.js:25-47 | The reference walk over the arguments from index `i`. It stops for help only if a `--help` or `-h` argument lies ahead. |
| Cli.ParseArgs | bin/oauth-helper.js:12-47 | No arguments leave the defaults. A stop for help means that `--help` or `-h` was among the arguments. |
| Cli.Config.constructor | bin/oauth-helper.js:13-18 | The defaults are no id, no secret, `http://localhost:5000` and `us`. |
| Cli.Config.ParseArguments | bin/oauth-helper.js:25-47 | The loop, with `++i` skipping a consumed value, ends in the state that the reference walk `Walk` over the arguments gives. It reports whether help stopped it. |
| Cli.Config.ApplyArgument | bin/oauth-helper.js:26-46 | One iteration changes the four fields exactly as `StepOf` says. Help changes nothing. |
| Cli.WalkAppend | bin/oauth-helper.js:25-47 | Parsing more arguments after a prefix continues from the prefix's settings. |
| Cli.StepIgnoresUntakenNext | bin/oauth-helper.js:29-30 | A next argument that cannot be taken as a value does not affect the step. |
| Cli.EqFormKeepsFirstSegment | bin/oauth-helper.js:31-32 | `--k=v` stores only the part of `v` before its first `=`, so `--secret=a=b` stores `a`. |
| Cli.StepEqForm | bin/oauth-helper.js:27-42 | For each of `--id`, `--secret`, `--redirect` and `--region`, `--k=v` sets exactly that setting, to the part of `v` before its first `=`. No earlier rung of the ladder catches it. |
| Cli.StepSpaceForm | bin/oauth-helper.js:29-42 | For each of the four options, `--k v` sets that setting to `v` and skips `v` exactly when `v` can be a value. Otherwise the option is ignored. |
| Cli.LastOccurrenceWins | bin/oauth-helper.js:25-47 | When any of the four options is given again at the end, in either form, its last occurrence is kept, whatever came before, and no other setting changes. |
| Cli.HelpStops | bin/oauth-helper.js:43-46 | `--help` stops parsing. The arguments after it are never looked at. |
| Cli.ShortHelpStops | bin/oauth-helper.js:43-46 | `-h` also stops parsing, with the settings read so far, unless it directly follows one of the four options, which then takes it as its value. |
| Cli.WalkAppendAfter | bin/oauth-helper.js:25-47 | An argument list that does not end in `--id`, `--secret`, `--redirect` or `--region` is read in two parts by any continuation, since only those options look at the next argument. |
| Cli.UnknownOptionIgnored | bin/oauth-helper.js:25-47 | An unrecognised argument, a plain word or an unknown option, changes nothing wherever it stands and whatever follows it, unless the option before it takes it as a value. One that starts with `--` is ignored even then. |
| Cli.SpaceForm | bin/oauth-helper.js:29-42 | For each of the four options, `--k v` stores `v` when `v` can be a value. Otherwise `v` is treated as an argument of its own. |
| Cli.ShortHelpCanBeAValue | bin/oauth-helper.js:29-43 | `--id -h` stores `-h` as the id and does not show help, because only `--` is excluded. |
| Cli.RequiredPresent | bin/oauth-helper.js:85-89 | The id and the secret must both be present. An empty id or secret counts as missing, since `!''` is true. |
| Cli.Confirmed | bin/oauth-helper.js:124 | Only an answer of one or three characters can confirm. |
| Text.ToLowerAscii | bin/oauth-helper.js:124 | `toLowerCase()`, restricted to ASCII letters, keeps the length and lower-cases each character. |
| Cli.ConfirmedAnswers | bin/oauth-helper.js:124 | The prompt is accepted exactly for `y` or `yes` in any mix of cases. |
| Cli.SecretPreview | bin/oauth-helper.js:106 | The echoed part is a prefix of the secret, at most 10 characters long. |
| Cli.ExitCode | bin/oauth-helper.js:170-178 | The exit code is 1 exactly for missing arguments or a failure, and 0 otherwise. |
| Cli.Run | bin/oauth-helper.js:12-178 | Help shows when asked for. A missing or empty id or secret stops before the prompt. A refusal cancels. After confirmation, a failure of `start()` is reported. On success the record takes the id and secret from the config, the region and tokens from the result, and `atExpiredTime` and `rtExpiredTime` as `atExpiry` and `rtExpiry`. |
| Utils.ParseDeviceParams | nodes/Ewelink/shared/utils.ts:4-13 | A non-string is returned unchanged. A string is parsed, and text that does not parse gives `{}`. |
| Utils.FormatSwitchParams | nodes/Ewelink/shared/utils.ts:18-28 | An outlet that is given and at least 0 gives an object whose only key is `switches`, holding one entry whose only keys are `switch` and `outlet`. Otherwise the object's only key is `switch`. |
| Utils.ReadFormatSwitchParams | nodes/Ewelink/shared/utils.ts:18-28 | The parameters have exactly one of the two shapes, with no other key, and read back as the state. They carry the outlet exactly when an outlet is given and is at least 0 (the multi-channel form); otherwise they are the single-channel form. |
| Utils.ReadSwitchOnlyFormatted | nodes/Ewelink/shared/utils.ts:18-28 | Every parameter object of one of the two shapes is exactly what `formatSwitchParams` builds for the state and outlet it holds. |
| Utils.DeviceRecord | nodes/Ewelink/shared/utils.ts:42-45 | The record is the item data with `isShared` set to (type is 2), which replaces any `isShared` in the data. |
| Utils.ExtractDevices | nodes/Ewelink/shared/utils.ts:39-46 | There is one output per item of type 1 or 2, and each output carries `isShared`. |
| Utils.ExtractDevicesAt | nodes/Ewelink/shared/utils.ts:39-46 | Every device item appears, as its record, at the position given by the number of devices before it, so input order is kept. |
| Utils.ExtractDevicesFrom | nodes/Ewelink/shared/utils.ts:39-46 | Every output is the record of an input item of type 1 or 2. |
| Utils.ExtractGroups | nodes/Ewelink/shared/utils.ts:48-50 | There is one output per item of type 3. |
| Utils.ExtractGroupsAt | nodes/Ewelink/shared/utils.ts:48-50 | Every group item's data appears unchanged, in input order. |
| Utils.ExtractGroupsFrom | nodes/Ewelink/shared/utils.ts:48-50 | Every output is the data of an input item of type 3. |
| Utils.DevicesAndGroupsPartition | nodes/Ewelink/shared/utils.ts:39-50 | No item is both a device and a group, so together the two outputs are never longer than the list. |
| Utils.ExtractAppend | nodes/Ewelink/shared/utils.ts:39-50 | Both extractors work list segment by list segment. |
| Utils.ThingItems | nodes/Ewelink/shared/utils.ts:39-41 | Filtering a non-array throws `thingList.filter is not a function`. On success there is one item per element, with its `itemType` and `itemData`. |
| Utils.ItemsOf | nodes/Ewelink/shared/utils.ts:41 | Reading `itemType` fails exactly when some element is `undefined` or `null`. |
| Client.CredentialsOf | nodes/Ewelink/shared/client.ts:23-41 | An error from `getCredentials` is passed through. Text is parsed with `JSON.parse`, and its error is passed through. An already parsed value is used as it is. Parsed `null` or `undefined` data throws the TypeError of reading `appId`. Any other data gives exactly the `FromJson` record of it. |
| Client.FromJson | nodes/Ewelink/shared/client.ts:33-41 | A missing expiry becomes 0 and a present one is kept. The tokens are as stored. |
| Client.NeedsRefresh | nodes/Ewelink/shared/client.ts:55-57 | A refresh is due only when the access token has an expiry that has passed and the refresh token has one that has not. A missing or zero expiry never makes a refresh due. |
| Client.ClientToken | nodes/Ewelink/shared/client.ts:50-74 | Without a refresh due, the client keeps the stored token. The token differs from the stored one only when a refresh was due and returned `error == 0` with data. In that case the token is the refreshed `at`. |
| Client.RefreshReplacesToken | nodes/Ewelink/shared/client.ts:64-65 | A due refresh that answers `error == 0` with data replaces the token. |
| Client.NoExpiryNoRefresh | nodes/Ewelink/shared/client.ts:39-56 | A stored token with a missing or zero expiry is never refreshed, at any time. |
| Client.RefreshOnlyWhenDue | nodes/Ewelink/shared/client.ts:55-57 | When no refresh is due, the refresh call plays no part. |
| Client.WebClient.constructor | nodes/Ewelink/shared/client.ts:43-47 | The client holds the given app id, secret and region, and no token yet. |
| Client.GetEwelinkClient | nodes/Ewelink/shared/client.ts:22-77 | It fails exactly when reading the credentials fails, with the same message. Otherwise the new client holds the stored region and the `ClientToken` token. The returned credentials are the stored ones, never the refreshed token. |
| Client.GetRegionUrl | nodes/Ewelink/shared/client.ts:82-85 | The host is `https://` + region + `-apia.coolkit.` + `cn` for the region `cn`, or `cc` for any other. |
| Client.RegionOfGetRegionUrl | nodes/Ewelink/shared/client.ts:82-85 | The region can be read back from its URL. |
| Client.GetRegionUrlInjective | nodes/Ewelink/shared/client.ts:82-85 | No two regions share a host. |
| Client.RegionUrls | nodes/Ewelink/shared/client.ts:82-85 | `cn` gives `https://cn-apia.coolkit.cn`, and any other `r` gives `https://r-apia.coolkit.cc`. |
| Transport.HandleApiResponse | nodes/Ewelink/shared/transport.ts:12-30 | It returns `data` exactly when `error == 0`. Otherwise the message is `msg`, or `eWeLink API error: <code>` when `msg` is empty. The description is `Error code: <code>`, `httpCode` is `String(error)`, and the item index is kept. |
| Transport.HttpCodeReadsBack | nodes/Ewelink/shared/transport.ts:23 | `httpCode`, the code written by `String`, parses back to the code: the inverse of `HandleApiResponse`'s `httpCode`. |
| Transport.HttpCodeDistinguishes | nodes/Ewelink/shared/transport.ts:23 | Different codes give different `httpCode`s. |
| Decimal.IntToString | nodes/Ewelink/shared/transport.ts:23 | `String(code)` is never empty and starts with `-` exactly for a negative code. |
| Transport.GetErrorMessage | nodes/Ewelink/shared/transport.ts:61-63 | A code in the table gives its entry. Any other code gives `Unknown error: <code>`. |
| Transport.TableCodes | nodes/Ewelink/shared/transport.ts:35-56 | The table has exactly the twenty listed codes. |
| Transport.EntriesAreNotFallbacks | nodes/Ewelink/shared/transport.ts:35-56 | No table entry starts like the fallback text. |
| Transport.ErrorMessageShape | nodes/Ewelink/shared/transport.ts:61-63 | The message is never empty. It is the fallback exactly for codes outside the table, and then ends with the code, which it parses back to. |
| Execution.Param | nodes/Ewelink/resources/device/execute.ts:58-60 | `getNodeParameter(name, i, fallback)` gives the set value, or the fallback when none is set. |
| Execution.RequiredParam | nodes/Ewelink/resources/device/execute.ts:106 | `getNodeParameter(name, i)` throws exactly when the parameter is not set. |
| Execution.Call | nodes/Ewelink/resources/device/execute.ts:107-109 | An SDK call fails exactly when it throws, with its message. Otherwise it gives the answer. |
| Execution.CommaList | nodes/Ewelink/resources/group/execute.ts:77 | Reading `split` of `undefined` or `null` throws `Cannot read properties of undefined (reading 'split')` or its `null` form. Calling it on any other non-string throws `<name>.split is not a function`. On a string there is one trimmed piece per comma plus one. |
| Execution.CommaListKeepsTrimmedPieces | nodes/Ewelink/resources/group/execute.ts:77 | Names without surrounding blanks come through unchanged, and they join back to the parameter text. |
| Text.Split | nodes/Ewelink/resources/group/execute.ts:77 | `split(',')` gives one piece per comma plus one, and no piece contains a comma. |
| Text.Trim | nodes/Ewelink/resources/home/execute.ts:64 | `trim()` never lengthens the text, leaves no whitespace at either end, and is a prefix of the text without its leading whitespace. |
| Execution.SafeResponse | nodes/Ewelink/resources/device/execute.ts:10-27 | The result always holds `_debug`, with the operation, `error`, `msg`, `status` and the extras, and always holds `_rawResponse`. The fields of `data` (or of `{}`) are merged only when `error === 0`, and they win on a clash. |
| Execution.DebugRecordsExtra | nodes/Ewelink/resources/device/execute.ts:17-23 | Unless successful data replaces `_debug`, it names the operation and carries every extra field. |
| Execution.FailedAnswerHidesData | nodes/Ewelink/resources/home/execute.ts:4-21 | An answer whose `error` is not the number 0 contributes only `_debug` and `_rawResponse`. |
| Execution.ItemJson | nodes/Ewelink/resources/device/execute.ts:223 | An element with a truthy `json` key keeps that `json` and is not wrapped again. Any other element becomes the `json` of its item. |
| Execution.JsonArray | nodes/Ewelink/resources/device/execute.ts:223 | `returnJsonArray` gives one item per element of an array, or one item for any other value, each with the `json` that `ItemJson` gives. |
| Execution.JsonArrayWithoutJsonKeys | nodes/Ewelink/resources/device/execute.ts:223 | Data without truthy `json` keys is emitted as it is: the elements of an array one by one, or the value whole. |
| Execution.Paired | nodes/Ewelink/resources/device/execute.ts:222-225 | Every output of item `i` is marked `pairedItem` `i`. |
| Execution.ErrorItem | nodes/Ewelink/resources/home/execute.ts:148-151 | The item for a failure under `continueOnFail` is `{error: message}`, with no other key, paired with its item. |
| Execution.Run | nodes/Ewelink/resources/device/execute.ts:52-239 | The reference loop. It ends by rethrowing only without `continueOnFail`, and only at one of its items. |
| Execution.RunItems | nodes/Ewelink/resources/device/execute.ts:52-239 | The loop over the items ends as the reference `Run` says. Each item's outputs are appended in turn. A failure adds `{error}` under `continueOnFail`, and otherwise ends the execution with a rethrow. |
| Execution.RethrownStays | nodes/Ewelink/resources/device/execute.ts:235 | Once an item's error is rethrown, later items change nothing. |
| Execution.RunExtends | nodes/Ewelink/resources/device/execute.ts:222-234 | A completed run over one more item appends exactly that item's contribution. |
| Execution.CompletedInOrder | nodes/Ewelink/resources/device/execute.ts:222-226 | Every output of a completed run is paired with an input item, in non-decreasing item order. |
| Execution.CompletedOutputs | nodes/Ewelink/resources/group/execute.ts:123-137 | For each item, the outputs paired with it are exactly its own contribution, in order: either the data of its result or its error item. |
| Execution.ContinueOnFailCompletes | nodes/Ewelink/resources/home/execute.ts:141-155 | With `continueOnFail()` the run always completes. |
| Execution.RethrowsFirstFailure | nodes/Ewelink/resources/device/execute.ts:227-236 | Without `continueOnFail()`, the run completes exactly when no item fails. Otherwise it rethrows the error of the first failing item. |
| Execution.ExecuteResource | nodes/Ewelink/resources/device/execute.ts:29-52 | If the credentials cannot be read, the result is exactly one `client_init_failed` item paired with 0, and no item is processed. Otherwise the result is the item loop, run with the client's token. |
| Execution.InitFailureItem | nodes/Ewelink/resources/device/execute.ts:35-42 | The item for a client that cannot be set up is paired with 0. It carries the error's message and stack, and `_debug` names the operation and `client_init_failed`. |
| DeviceResource.GetAllRequest | nodes/Ewelink/resources/device/execute.ts:58-75 | With `returnAll`, the request is `getAllThingsAllPages`. Without it, the request is `getAllThings` with `num`. An empty family is sent as `undefined`. |
| DeviceResource.GetAllDevices | nodes/Ewelink/resources/device/execute.ts:77-98 | A non-empty device list is returned as it is. With no devices, the result is a single debug item. A thing list that cannot be filtered fails. |
| DeviceResource.NoDevicesItem | nodes/Ewelink/resources/device/execute.ts:89-97 | The item says `No devices found`. `total` falls back to 0, and it carries the thing-list length and the raw answer. |
| DeviceResource.GetAllWithoutDevices | nodes/Ewelink/resources/device/execute.ts:83-98 | An empty thing list with no `total` gives one item with `total` 0 and length 0. |
| DeviceResource.GetAllDefaultFamily | nodes/Ewelink/resources/device/execute.ts:58-65 | The default family (the empty string) is sent as `undefined`. |
| DeviceResource.GetRequest | nodes/Ewelink/resources/device/execute.ts:107-109 | `get` calls `device.getThings` with a single thing of type 1 and the device's id, and nothing else. |
| DeviceResource.GetOutput | nodes/Ewelink/resources/device/execute.ts:111-114 | Reading `thingList` of missing data fails. Otherwise the result is the first thing's data with `_debug` added unless the data has its own, and it has no other key. |
| DeviceResource.OutletOf | nodes/Ewelink/resources/device/execute.ts:136 | A numeric outlet is passed on as it is. |
| DeviceResource.SetStatusParams | nodes/Ewelink/resources/device/execute.ts:139-141 | The params sent are the switch params overlaid by the parsed additional params. The additional keys win, and no other key is added. |
| DeviceResource.SetStatusWithoutExtras | nodes/Ewelink/resources/device/execute.ts:137-141 | With the default `{}`, exactly the switch params are sent. |
| DeviceResource.SetStatusOutcome | nodes/Ewelink/resources/device/execute.ts:133-155 | `setStatus` reports the answer to exactly that request. When the answer's `error` is not 0, the result holds only `_debug`, with what was sent, and `_rawResponse`. |
| DeviceResource.UpdateRequest | nodes/Ewelink/resources/device/execute.ts:179-188 | An empty new name or room is sent as `undefined`. A non-empty one is sent as it is. |
| DeviceResource.ShareUser | nodes/Ewelink/resources/device/execute.ts:199-207 | The user is the country code with the e-mail when the method is `email`, and with the phone number otherwise. |
| DeviceResource.DeviceItem | nodes/Ewelink/resources/device/execute.ts:56-220 | An operation outside the eight fails with `Unknown operation: <op>`. |
| DeviceResource.UnknownOperationFails | nodes/Ewelink/resources/device/execute.ts:218-219 | An unknown operation fails the same way for every item and any host, before any parameter is read. |
| DeviceResource.DeleteCallFailure | nodes/Ewelink/resources/device/execute.ts:169-177 | A throwing SDK call fails the item with its message. |
| DeviceResource.ExecuteDeviceOperation | nodes/Ewelink/resources/device/execute.ts:29-240 | The device executor is the shared executor over `DeviceItem`. |
| HomeResource.RoomNameList | nodes/Ewelink/resources/home/execute.ts:61-65 | An empty list is sent as `undefined`. A non-empty string is split into one trimmed name per comma plus one. |
| HomeResource.CreateSendsRoomNames | nodes/Ewelink/resources/home/execute.ts:58-69 | `create` reports the answer to `addFamily` with those names, through `safeResponse` with `name` and `sort`. |
| HomeResource.CreateRejectsNonStringRooms | nodes/Ewelink/resources/home/execute.ts:63-64 | A truthy non-string room list fails with the `split` TypeError, before any call. |
| HomeResource.DelFamilyRequest | nodes/Ewelink/resources/home/execute.ts:77-81 | A falsy `deviceFamily` or `switchFamily` is replaced by the family being deleted. |
| HomeResource.Section | nodes/Ewelink/resources/home/execute.ts:121-125 | A false flag sends `undefined`. |
| HomeResource.HomePageRequest | nodes/Ewelink/resources/home/execute.ts:120-126 | True `getThing` and `getMessage` send `{num: 30}`. The other true flags send `{}`, and false flags send `undefined`. |
| HomeResource.HomePageDefaults | nodes/Ewelink/resources/home/execute.ts:114-118 | The default flags ask for the user, the families and 30 things. |
| HomeResource.HomeItem | nodes/Ewelink/resources/home/execute.ts:50-139 | An operation outside the seven fails with `Unknown operation: <op>`. |
| HomeResource.UnknownOperationFails | nodes/Ewelink/resources/home/execute.ts:137-138 | An unknown operation fails every item with that message. |
| HomeResource.ExecuteHomeOperation | nodes/Ewelink/resources/home/execute.ts:30-46 | The home executor is the shared executor over `HomeItem`, with the same initialisation and loop rules. |
| GroupResource.GetAllGroups | nodes/Ewelink/resources/group/execute.ts:56-64 | Reading `thingList` of missing data fails. A non-empty group list is returned in order. With no groups, the result is a single debug item. |
| GroupResource.NoGroupsItem | nodes/Ewelink/resources/group/execute.ts:64 | The item says `No groups found` and carries the raw answer. |
| GroupResource.GetAllWithoutGroups | nodes/Ewelink/resources/group/execute.ts:60-64 | A thing list of devices only gives the single `No groups found` item. |
| GroupResource.AddGroupRequest | nodes/Ewelink/resources/group/execute.ts:79-84 | The request has exactly the keys `name`, `mainDeviceId`, `deviceidList` and `familyId`. The name, the main device and the member list are sent as given, and an empty family as `undefined`. |
| GroupResource.CreateSplitsMembers | nodes/Ewelink/resources/group/execute.ts:77 | One trimmed id is sent per comma-separated piece. |
| GroupResource.SetGroupStatusRequest | nodes/Ewelink/resources/group/execute.ts:101-105 | `setStatus` always sends `type: 2`, the group's id as `id`, and params exactly `{switch: state}`. |
| GroupResource.GroupItem | nodes/Ewelink/resources/group/execute.ts:50-121 | An operation outside the five fails with `Unknown operation: <op>`. |
| GroupResource.UnknownOperationFails | nodes/Ewelink/resources/group/execute.ts:119-120 | An unknown operation fails every item with that message. |
| GroupResource.ExecuteGroupOperation | nodes/Ewelink/resources/group/execute.ts:30-46 | The group executor is the shared executor over `GroupItem`, with the same initialisation and loop rules. |

## Left out

- HTTP listening, the `'error'` event with its `EADDRINUSE` message, and the console output of `start()` are I/O; `Start` only records the listening state.
- The 500 ms `setTimeout` before closing and resolving after a successful exchange is event-loop timing. The model closes and resolves at once.
- `open(authUrl)`, `createLoginUrl` and `getAuthUrl` have no result the model could use.
- The HTML of `createCallbackPage` is markup; only its success flag and message are modelled.
- `crypto.randomBytes` is a constructor parameter (32 bytes).
- `new URL(...)` is not modelled: `Start` takes the URL's port text, or the error of parsing the URL.
- `url.pathname` and `searchParams` decoding are not modelled: the handler takes the path and the decoded query pairs.
- OAuth.ExchangeCodeForToken: an answer with `error === 0` and no `data` (a TypeError in the source) is not modelled, because the answer type always carries data.
- The CLI's `readline` prompt, `console` output, `process.exit`, `showHelp` text and `DEBUG` logging are I/O. The answer is a parameter, and the exit code is `ExitCode` of the outcome.
- `JSON.parse` and `JSON.stringify` are foreign code: parsing is an oracle giving an optional value, and the printed record is the `CredentialsRecord` value.
- Numbers are integers: NaN, fractions and non-numeric expiries or outlets are not modelled.
- DeviceResource.OutletOf: a non-numeric outlet is treated as absent.
- Execution.ItemJson: n8n's `returnJsonArray` is host code, modelled from its documented behaviour. An element with a truthy `json` key also keeps its other keys (`binary` and so on) on the item. The model keeps only the item's `json`.
- OAuth.TwoCallbacks: concurrent callbacks are not modelled. In the source the handler is `async`, and the server keeps listening while it awaits the token exchange and during the 500 ms timer. A second request in that window, for example `/?error=x`, closes the server and rejects first, which changes how the first callback settles. The model handles each request to completion before the next.
- `client.setUrl(region)` is SDK-internal state that no modelled operation reads.
- Every SDK call (`getToken`, `refreshToken`, the `device.*` and `home.*` calls) is an oracle answer, not code.
- `Date.now()` is the parameter `now`.
- The text of host errors is not modelled: the failure of a missing parameter is the fixed message `Could not get parameter`.
- The stack trace of an initialisation error is an opaque parameter.
- `Ewelink.node.ts` (the router over the three executors), `resources/*/index.ts`, `shared/descriptions.ts` and `credentials/EwelinkApi.credentials.ts` are declarative schema tables, and are not part of this model.
- Promise and `async` interleaving is not modelled. Each item's step runs to completion before the next starts, as the sequential `await` in the loop does.
