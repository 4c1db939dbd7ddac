/** The OAuth2 authorization-code helper (lib/oauth-helper.ts): the port
    chosen from the redirect URI, the anti-forgery state fixed at
    construction, the classification of a callback request, the mapping of
    the vendor's token answer, and the helper object whose `server` field
    and pending promise the callback handler changes. */
module OAuth {
  import opened Wrappers
  import Decimal
  import Hex

  datatype OAuthConfig = OAuthConfig(appId: string, appSecret: string, redirectUri: string, region: string)

  datatype OAuthResult = OAuthResult(
    accessToken: string,
    refreshToken: string,
    atExpiredTime: int,
    rtExpiredTime: int,
    region: string)

  /** The `data` part of the vendor SDK's `oauth.getToken` answer. */
  datatype TokenData = TokenData(accessToken: string, refreshToken: string, atExpiredTime: int, rtExpiredTime: int)

  /** What `getToken` is asked for. */
  datatype TokenRequest = TokenRequest(region: string, redirectUrl: string, code: string)

  /** What `getToken` does: it throws (network, TLS, ...) with a message, or
      answers `{error, msg, data}`; an absent `msg` is the empty string. */
  datatype TokenCall = TokenThrew(message: string) | TokenAnswer(error: int, msg: string, data: TokenData)

  // ---------------------------------------------------------------------------
  // getPort

  /** `getPort()`: `parseInt(url.port, 10) || 80`, where `urlPort` is the port
      component the URL parser gives (empty when the URI names none or names
      its scheme's default port). */
  function GetPort(urlPort: string): (port: int)
    ensures port != 0
    ensures urlPort == "" ==> port == 80
    ensures Decimal.ParseInt(urlPort).Some? && Decimal.ParseInt(urlPort).value != 0 ==>
              port == Decimal.ParseInt(urlPort).value
  {
    match Decimal.ParseInt(urlPort)
    case Some(n) => if n != 0 then n else 80
    case None => 80
  }

  /** An explicit non-zero port is recovered exactly; port 0 falls back to 80. */
  lemma GetPortOfExplicitPort(n: nat)
    ensures GetPort(Decimal.NatToString(n)) == if n == 0 then 80 else n
  {
    Decimal.ParseIntOfNatToString(n);
  }

  // ---------------------------------------------------------------------------
  // exchangeCodeForToken

  /** The result mapping of `exchangeCodeForToken(code, region)`: a non-zero
      `error` fails with `OAuth error: <msg or 'Unknown error'>`, a zero one
      copies the four token fields and takes `region` from the callback. */
  function ExchangeCodeForToken(call: TokenCall, region: string): (r: Result<OAuthResult, string>)
    ensures r.Success? <==> call.TokenAnswer? && call.error == 0
    ensures call.TokenThrew? ==> r == Failure(call.message)
    ensures call.TokenAnswer? && call.error != 0 ==>
              r == Failure("OAuth error: " + (if call.msg == "" then "Unknown error" else call.msg))
    ensures r.Success? ==>
              && r.value.accessToken == call.data.accessToken
              && r.value.refreshToken == call.data.refreshToken
              && r.value.atExpiredTime == call.data.atExpiredTime
              && r.value.rtExpiredTime == call.data.rtExpiredTime
              && r.value.region == region
  {
    match call
    case TokenThrew(m) => Failure(m)
    case TokenAnswer(error, msg, data) =>
      if error != 0 then Failure("OAuth error: " + (if msg == "" then "Unknown error" else msg))
      else Success(OAuthResult(data.accessToken, data.refreshToken, data.atExpiredTime, data.rtExpiredTime, region))
  }

  // ---------------------------------------------------------------------------
  // The callback request

  /** A query string as `URLSearchParams` holds it: name/value pairs in order. */
  type Query = seq<(string, string)>

  /** `searchParams.get(name)`: the first value given for `name`, `None` (null) if none. */
  function QueryGet(q: Query, name: string): (r: Option<string>)
    ensures r.Some? ==> exists k :: 0 <= k < |q| && q[k] == (name, r.value) &&
                                    forall j :: 0 <= j < k ==> q[j].0 != name
    ensures r.None? ==> forall k :: 0 <= k < |q| ==> q[k].0 != name
    decreases |q|
  {
    if q == [] then None
    else if q[0].0 == name then Some(q[0].1)
    else
      var r := QueryGet(q[1..], name);
      if r.Some? then
        ghost var k :| 0 <= k < |q[1..]| && q[1..][k] == (name, r.value) &&
                       forall j :: 0 <= j < k ==> q[1..][j].0 != name;
        assert q[k + 1] == (name, r.value);
        assert forall j :: 0 <= j < k + 1 ==> q[j].0 != name by {
          forall j | 0 <= j < k + 1 ensures q[j].0 != name {
            if j > 0 { assert q[j] == q[1..][j - 1]; }
          }
        }
        r
      else r
  }

  /** JavaScript truthiness of a `get` result: present and not empty. */
  predicate Present(v: Option<string>) {
    v.Some? && v.value != ""
  }

  /** `createCallbackPage(success, message)`, without its markup. */
  datatype Page = Page(success: bool, message: string)

  const SuccessMessage: string :=
    "Your OAuth tokens have been generated successfully. Check your terminal for the credentials."

  /** What the handler decides from the request before any exchange. */
  datatype Decision =
    | NotFound
    | Refuse(reason: string, page: Page)
    | Exchange(code: string, region: string)

  function ErrorDescription(q: Query): string {
    var d := QueryGet(q, "error_description");
    if Present(d) then d.value else "Unknown error"
  }

  /** The ordered checks of the request handler: path, then `error`, then
      `state`, then `code`, then `region`. */
  function Classify(path: string, q: Query, expectedState: string): (d: Decision)
    ensures d.NotFound? <==> path != "/"
    ensures d.Exchange? <==>
              && path == "/"
              && !Present(QueryGet(q, "error"))
              && QueryGet(q, "state") == Some(expectedState)
              && Present(QueryGet(q, "code"))
              && Present(QueryGet(q, "region"))
    ensures d.Exchange? ==> Some(d.code) == QueryGet(q, "code") && Some(d.region) == QueryGet(q, "region")
    ensures d.Refuse? ==> !d.page.success
  {
    if path != "/" then NotFound
    else
      var code := QueryGet(q, "code");
      var state := QueryGet(q, "state");
      var region := QueryGet(q, "region");
      var error := QueryGet(q, "error");
      if Present(error) then
        var description := ErrorDescription(q);
        Refuse("OAuth error: " + description, Page(false, "OAuth Error: " + description))
      else if state != Some(expectedState) then
        Refuse("Invalid state parameter", Page(false, "Invalid state parameter. Possible CSRF attack."))
      else if !Present(code) then
        Refuse("No authorization code received", Page(false, "No authorization code received."))
      else if !Present(region) then
        Refuse("No region parameter received", Page(false, "No region parameter received."))
      else
        Exchange(code.value, region.value)
  }

  /** A non-empty `error` decides the request on its own: whatever the state,
      code and region say, two such requests with the same description are
      refused alike, with `OAuth error: ` and the description. */
  lemma ErrorWins(q1: Query, q2: Query, expectedState: string)
    requires Present(QueryGet(q1, "error")) && Present(QueryGet(q2, "error"))
    requires QueryGet(q1, "error_description") == QueryGet(q2, "error_description")
    ensures Classify("/", q1, expectedState) == Classify("/", q2, expectedState)
    ensures Classify("/", q1, expectedState).Refuse?
    ensures Classify("/", q1, expectedState).reason == "OAuth error: " + ErrorDescription(q1)
  {
  }

  /** Without an error, a state that is absent or differs from the stored one
      in any character is refused as a possible forgery, before the code or
      the region are looked at. */
  lemma StateCheckedBeforeCode(q: Query, expectedState: string)
    requires !Present(QueryGet(q, "error"))
    requires QueryGet(q, "state") != Some(expectedState)
    ensures Classify("/", q, expectedState) ==
              Refuse("Invalid state parameter", Page(false, "Invalid state parameter. Possible CSRF attack."))
  {
  }

  /** A missing code is reported before a missing region. */
  lemma CodeCheckedBeforeRegion(q: Query, expectedState: string)
    requires !Present(QueryGet(q, "error")) && QueryGet(q, "state") == Some(expectedState)
    requires !Present(QueryGet(q, "code"))
    ensures Classify("/", q, expectedState).reason == "No authorization code received"
  {
  }

  /** The HTTP answer: a 404 with the text `Not found`, or a 200 with a page. */
  datatype Body = NotFoundText | CallbackPage(page: Page)
  datatype HttpResponse = HttpResponse(status: int, body: Body)

  /** The state of the promise `start()` returned. */
  datatype PromiseState = NotCreated | Pending | Fulfilled(result: OAuthResult) | RejectedWith(message: string)

  /** The handler's whole reaction to one request: what it answers, whether it
      closes the server, and how it settles the promise (Pending: not at all). */
  datatype Reaction = Reaction(response: HttpResponse, closes: bool, settlement: PromiseState)

  /** The request handler inside `start()`, as a function of the request, the
      stored state, the redirect URI and what `getToken` does. */
  function React(path: string, q: Query, expectedState: string, redirectUri: string,
                 getToken: TokenRequest -> TokenCall): (r: Reaction)
    ensures r.settlement != NotCreated
  {
    match Classify(path, q, expectedState)
    case NotFound => Reaction(HttpResponse(404, NotFoundText), false, Pending)
    case Refuse(reason, page) => Reaction(HttpResponse(200, CallbackPage(page)), true, RejectedWith(reason))
    case Exchange(code, region) =>
      match ExchangeCodeForToken(getToken(TokenRequest(region, redirectUri, code)), region)
      case Success(result) => Reaction(HttpResponse(200, CallbackPage(Page(true, SuccessMessage))), true, Fulfilled(result))
      case Failure(m) => Reaction(HttpResponse(200, CallbackPage(Page(false, "Error: " + m))), true, RejectedWith(m))
  }

  /** A request for any other path than `/` gets a 404, does not close the
      server and does not settle the promise. */
  lemma OtherPathKeepsListening(path: string, q: Query, s: string, uri: string, getToken: TokenRequest -> TokenCall)
    requires path != "/"
    ensures React(path, q, s, uri, getToken) == Reaction(HttpResponse(404, NotFoundText), false, Pending)
  {
  }

  /** Every request to `/` is answered with 200, closes the server and settles
      the promise; the page reports success exactly when the promise is
      fulfilled, which happens only after a successful exchange. */
  lemma CallbackAlwaysDecides(q: Query, s: string, uri: string, getToken: TokenRequest -> TokenCall)
    ensures var r := React("/", q, s, uri, getToken);
      && r.response.status == 200
      && r.closes
      && r.settlement != Pending
      && r.response.body.CallbackPage?
      && (r.response.body.page.success <==> r.settlement.Fulfilled?)
      && (r.settlement.Fulfilled? ==> Classify("/", q, s).Exchange?)
  {
  }

  /** The token exchange is attempted only when all four checks pass: when
      they do not, what `getToken` would do makes no difference. */
  lemma NoExchangeUnlessAccepted(path: string, q: Query, s: string, uri: string,
                                 t1: TokenRequest -> TokenCall, t2: TokenRequest -> TokenCall)
    requires !Classify(path, q, s).Exchange?
    ensures React(path, q, s, uri, t1) == React(path, q, s, uri, t2)
  {
  }

  /** A fulfilled promise carries the callback's region and the tokens of the
      exchange requested with the callback's code. */
  lemma FulfilledCarriesCallbackRegion(q: Query, s: string, uri: string, getToken: TokenRequest -> TokenCall)
    requires React("/", q, s, uri, getToken).settlement.Fulfilled?
    ensures var region := QueryGet(q, "region").value;
      var call := getToken(TokenRequest(region, uri, QueryGet(q, "code").value));
      && call.TokenAnswer? && call.error == 0
      && React("/", q, s, uri, getToken).settlement.result ==
           OAuthResult(call.data.accessToken, call.data.refreshToken,
                       call.data.atExpiredTime, call.data.rtExpiredTime, region)
  {
  }

  // ---------------------------------------------------------------------------
  // The helper object

  /** The `server` field: `null`, a server listening on a port, or one that was closed. */
  datatype ServerState = NoServer | Listening(port: int) | Closed(port: int)

  /** `this.server?.close()`: closing is a no-op without a server and on a closed one. */
  function Close(s: ServerState): (r: ServerState)
    ensures !r.Listening?
    ensures s.NoServer? <==> r.NoServer?
    ensures !s.NoServer? ==> r.port == s.port
  {
    match s
    case NoServer => NoServer
    case Listening(p) => Closed(p)
    case Closed(p) => Closed(p)
  }

  /** Closing twice is closing once. */
  lemma CloseIdempotent(s: ServerState)
    ensures Close(Close(s)) == Close(s)
  {
  }

  class OAuthHelper {
    const config: OAuthConfig
    /** Fixed once, in the constructor: never reassigned. */
    const state: string
    var server: ServerState
    /** The promise returned by the latest `start()`. */
    var promise: PromiseState

    /** `new OAuthHelper(config)`: `randomBytes` are the 32 bytes
        `crypto.randomBytes(32)` produced; the state is their hex encoding. */
    constructor (config: OAuthConfig, randomBytes: seq<Hex.byte>)
      requires |randomBytes| == 32
      ensures this.config == config
      ensures state == Hex.Encode(randomBytes) && |state| == 64
      ensures server == NoServer && promise == NotCreated
    {
      this.config := config;
      this.state := Hex.Encode(randomBytes);
      this.server := NoServer;
      this.promise := NotCreated;
    }

    /** `start()`: a new promise; `getPort()` parses the redirect URI inside
        the promise executor, so a URI the parser rejects (`urlPort` is the
        parser's port component or its error message) rejects the promise
        before any server exists; otherwise the server listens on the port. */
    method Start(urlPort: Result<string, string>)
      modifies this
      ensures urlPort.Failure? ==> server == old(server) && promise == RejectedWith(urlPort.error)
      ensures urlPort.Success? ==> server == Listening(GetPort(urlPort.value)) && promise == Pending
    {
      promise := Pending;
      match urlPort {
        case Failure(m) =>
          promise := RejectedWith(m);
        case Success(p) =>
          var port := GetPort(p);
          server := Listening(port);
      }
    }

    /** `resolve`/`reject` of the promise: only the first settlement counts. */
    method Settle(s: PromiseState)
      modifies this`promise
      ensures promise == (if old(promise) == Pending then s else old(promise))
    {
      if promise == Pending {
        promise := s;
      }
    }

    /** `this.server?.close()`. */
    method CloseServer()
      modifies this`server
      ensures server == Close(old(server))
    {
      if server != NoServer {
        server := Close(server);
      }
    }

    /** The request handler `start()` installs, run for one request.  Nothing
        stops it from running again for a request that reaches a closed
        server over a kept-alive connection: it then may exchange again, but
        the promise keeps its first settlement. */
    method HandleRequest(path: string, q: Query, getToken: TokenRequest -> TokenCall)
      returns (response: HttpResponse)
      requires server != NoServer
      modifies this
      ensures var r := React(path, q, state, config.redirectUri, getToken);
        && response == r.response
        && server == (if r.closes then Close(old(server)) else old(server))
        && promise == (if old(promise) == Pending && r.settlement != Pending then r.settlement else old(promise))
    {
      if path != "/" {
        response := HttpResponse(404, NotFoundText);
        return;
      }
      var code := QueryGet(q, "code");
      var receivedState := QueryGet(q, "state");
      var region := QueryGet(q, "region");
      var error := QueryGet(q, "error");

      if Present(error) {
        var description := ErrorDescription(q);
        response := HttpResponse(200, CallbackPage(Page(false, "OAuth Error: " + description)));
        CloseServer();
        Settle(RejectedWith("OAuth error: " + description));
        return;
      }
      if receivedState != Some(state) {
        response := HttpResponse(200, CallbackPage(Page(false, "Invalid state parameter. Possible CSRF attack.")));
        CloseServer();
        Settle(RejectedWith("Invalid state parameter"));
        return;
      }
      if !Present(code) {
        response := HttpResponse(200, CallbackPage(Page(false, "No authorization code received.")));
        CloseServer();
        Settle(RejectedWith("No authorization code received"));
        return;
      }
      if !Present(region) {
        response := HttpResponse(200, CallbackPage(Page(false, "No region parameter received.")));
        CloseServer();
        Settle(RejectedWith("No region parameter received"));
        return;
      }
      var exchanged := ExchangeCodeForToken(getToken(TokenRequest(region.value, config.redirectUri, code.value)), region.value);
      match exchanged {
        case Success(tokenData) =>
          response := HttpResponse(200, CallbackPage(Page(true, SuccessMessage)));
          CloseServer();
          Settle(Fulfilled(tokenData));
        case Failure(m) =>
          response := HttpResponse(200, CallbackPage(Page(false, "Error: " + m)));
          CloseServer();
          Settle(RejectedWith(m));
      }
    }
  }

  /** Two callbacks reaching one helper, the second handled after the first
      has finished: the promise settles on the first, the second cannot
      change it, and the server stays closed. */
  method TwoCallbacks(config: OAuthConfig, randomBytes: seq<Hex.byte>, urlPort: string,
                      q1: Query, q2: Query, getToken: TokenRequest -> TokenCall)
    returns (first: PromiseState, last: PromiseState, server: ServerState)
    requires |randomBytes| == 32
    ensures first == React("/", q1, Hex.Encode(randomBytes), config.redirectUri, getToken).settlement
    ensures last == first
    ensures server == Closed(GetPort(urlPort))
  {
    var helper := new OAuthHelper(config, randomBytes);
    helper.Start(Success(urlPort));
    CallbackAlwaysDecides(q1, helper.state, config.redirectUri, getToken);
    var _ := helper.HandleRequest("/", q1, getToken);
    first := helper.promise;
    CallbackAlwaysDecides(q2, helper.state, config.redirectUri, getToken);
    var _ := helper.HandleRequest("/", q2, getToken);
    last := helper.promise;
    server := helper.server;
  }
}
