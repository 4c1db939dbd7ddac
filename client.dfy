/** nodes/Ewelink/shared/client.ts: reading the stored credentials, the
    decision to refresh the access token, the token the SDK client ends up
    with, and the API host of a region. */
module Client {
  import opened Wrappers
  import Text

  /** The parsed credentials JSON; an absent property is `None`. */
  datatype CredentialsJson = CredentialsJson(
    appId: Option<string>,
    appSecret: Option<string>,
    region: Option<string>,
    accessToken: Option<string>,
    refreshToken: Option<string>,
    atExpiry: Option<int>,
    rtExpiry: Option<int>)

  /** What `credentialsData` is: `null`, `undefined`, or a record. */
  datatype CredentialsData = NullData | UndefinedData | Data(json: CredentialsJson)

  /** `credentials.credentialsJson`: JSON text, or an already parsed value. */
  datatype CredentialsField = JsonText(text: string) | JsonValue(data: CredentialsData)

  /** `EwelinkCredentials`; the expiries are milliseconds since the epoch. */
  datatype EwelinkCredentials = EwelinkCredentials(
    appId: Option<string>,
    appSecret: Option<string>,
    region: Option<string>,
    accessToken: Option<string>,
    refreshToken: Option<string>,
    atExpiry: int,
    rtExpiry: int)

  /** The credentials `getEwelinkClient` builds: `stored` is what
      `getCredentials('ewelinkApi')` gives (or the error it throws), `parse`
      is `JSON.parse` (or the message of the error it throws).  Reading
      `appId` of `null` or `undefined` is a TypeError; a missing expiry is 0. */
  function CredentialsOf(stored: Result<CredentialsField, string>,
                         parse: string -> Result<CredentialsData, string>): (r: Result<EwelinkCredentials, string>)
    ensures stored.Failure? ==> r == Failure(stored.error)
    ensures stored.Success? && stored.value.JsonText? && parse(stored.value.text).Failure? ==>
              r == Failure(parse(stored.value.text).error)
    ensures stored.Success? && (stored.value.JsonValue? || parse(stored.value.text).Success?) ==>
              var data := if stored.value.JsonValue? then stored.value.data else parse(stored.value.text).value;
              && (data.Data? ==> r == Success(FromJson(data.json)))
              && (data.NullData? ==> r == Failure("Cannot read properties of null (reading 'appId')"))
              && (data.UndefinedData? ==> r == Failure("Cannot read properties of undefined (reading 'appId')"))
  {
    var field :- stored;
    var data :- match field
                case JsonText(text) => parse(text)
                case JsonValue(d) => Success(d);
    match data
    case NullData => Failure("Cannot read properties of null (reading 'appId')")
    case UndefinedData => Failure("Cannot read properties of undefined (reading 'appId')")
    case Data(json) => Success(FromJson(json))
  }

  /** The record of lines 33-41: the five strings as stored, and
      `(expiry as number) || 0` for the two expiries. */
  function FromJson(json: CredentialsJson): (c: EwelinkCredentials)
    ensures json.atExpiry.None? ==> c.atExpiry == 0
    ensures json.rtExpiry.None? ==> c.rtExpiry == 0
    ensures json.atExpiry.Some? ==> c.atExpiry == json.atExpiry.value
    ensures json.rtExpiry.Some? ==> c.rtExpiry == json.rtExpiry.value
    ensures c.accessToken == json.accessToken && c.refreshToken == json.refreshToken
  {
    EwelinkCredentials(json.appId, json.appSecret, json.region, json.accessToken, json.refreshToken,
                       Expiry(json.atExpiry), Expiry(json.rtExpiry))
  }

  /** `(value as number) || 0`: 0 for an absent expiry; a number is kept,
      since `0 || 0` is 0 as well. */
  function Expiry(value: Option<int>): int {
    value.GetOr(0)
  }

  /** Lines 56-57: the access token has an expiry that has passed, and the
      refresh token has an expiry that has not. */
  predicate NeedsRefresh(c: EwelinkCredentials, now: int)
    ensures NeedsRefresh(c, now) ==> 0 < c.atExpiry <= now < c.rtExpiry
    ensures c.atExpiry <= 0 || c.rtExpiry <= 0 ==> !NeedsRefresh(c, now)
  {
    c.atExpiry > 0 && now >= c.atExpiry && c.rtExpiry > 0 && now < c.rtExpiry
  }

  datatype RefreshData = RefreshData(at: Option<string>)

  /** What `client.user.refreshToken({rt})` does: it throws, or answers
      `{error, data}` (`None`: no data). */
  datatype RefreshAnswer = RefreshThrew(message: string) | RefreshReturned(error: int, data: Option<RefreshData>)

  /** The access token the client is left with. */
  function ClientToken(c: EwelinkCredentials, now: int, refresh: Option<string> -> RefreshAnswer): (token: Option<string>)
    ensures !NeedsRefresh(c, now) ==> token == c.accessToken
    ensures token != c.accessToken ==>
              && NeedsRefresh(c, now)
              && refresh(c.refreshToken).RefreshReturned?
              && refresh(c.refreshToken).error == 0
              && refresh(c.refreshToken).data.Some?
              && token == refresh(c.refreshToken).data.value.at
  {
    if !NeedsRefresh(c, now) then c.accessToken
    else
      match refresh(c.refreshToken)
      case RefreshReturned(error, Some(d)) => if error == 0 then d.at else c.accessToken
      case _ => c.accessToken
  }

  /** A refresh that succeeds with data always replaces the token. */
  lemma RefreshReplacesToken(c: EwelinkCredentials, now: int, refresh: Option<string> -> RefreshAnswer)
    requires NeedsRefresh(c, now)
    requires refresh(c.refreshToken).RefreshReturned? && refresh(c.refreshToken).error == 0
    requires refresh(c.refreshToken).data.Some?
    ensures ClientToken(c, now, refresh) == refresh(c.refreshToken).data.value.at
  {
  }

  /** A stored access token without an expiry is never refreshed, whatever
      the time and whatever the refresh call would do. */
  lemma NoExpiryNoRefresh(json: CredentialsJson, now: int, refresh: Option<string> -> RefreshAnswer)
    requires json.atExpiry.None? || json.atExpiry == Some(0)
    ensures !NeedsRefresh(FromJson(json), now)
    ensures ClientToken(FromJson(json), now, refresh) == json.accessToken
  {
  }

  /** The refresh call plays no part unless a refresh is due. */
  lemma RefreshOnlyWhenDue(c: EwelinkCredentials, now: int, r1: Option<string> -> RefreshAnswer, r2: Option<string> -> RefreshAnswer)
    requires !NeedsRefresh(c, now)
    ensures ClientToken(c, now, r1) == ClientToken(c, now, r2)
  {
  }

  /** The `eWeLink.WebAPI` object, with the two fields the code assigns. */
  class WebClient {
    const appId: Option<string>
    const appSecret: Option<string>
    const configuredRegion: Option<string>
    var at: Option<string>
    var region: Option<string>

    constructor (appId: Option<string>, appSecret: Option<string>, region: Option<string>)
      ensures this.appId == appId && this.appSecret == appSecret && configuredRegion == region
      ensures at == None && this.region == region
    {
      this.appId := appId;
      this.appSecret := appSecret;
      this.configuredRegion := region;
      this.at := None;
      this.region := region;
    }
  }

  /** `getEwelinkClient(context)`: `now` is `Date.now()`.  The client gets the
      stored token and region, then the refreshed token when a refresh is due
      and succeeds; the returned credentials are always the stored ones. */
  method GetEwelinkClient(stored: Result<CredentialsField, string>,
                          parse: string -> Result<CredentialsData, string>,
                          now: int, refresh: Option<string> -> RefreshAnswer)
    returns (r: Result<(WebClient, EwelinkCredentials), string>)
    ensures r.Failure? <==> CredentialsOf(stored, parse).Failure?
    ensures r.Failure? ==> r.error == CredentialsOf(stored, parse).error
    ensures r.Success? ==>
              var c := CredentialsOf(stored, parse).value;
              && fresh(r.value.0)
              && r.value.1 == c
              && r.value.0.at == ClientToken(c, now, refresh)
              && r.value.0.region == c.region
              && r.value.0.appId == c.appId && r.value.0.appSecret == c.appSecret
  {
    var read := CredentialsOf(stored, parse);
    if read.Failure? {
      return Failure(read.error);
    }
    var credentials := read.value;
    var client := new WebClient(credentials.appId, credentials.appSecret, credentials.region);
    client.at := credentials.accessToken;
    client.region := credentials.region;
    if credentials.atExpiry > 0 && now >= credentials.atExpiry {
      if credentials.rtExpiry > 0 && now < credentials.rtExpiry {
        var refreshResult := refresh(credentials.refreshToken);
        if refreshResult.RefreshReturned? && refreshResult.error == 0 && refreshResult.data.Some? {
          client.at := refreshResult.data.value.at;
        }
      }
    }
    return Success((client, credentials));
  }

  // ---------------------------------------------------------------------------
  // getRegionUrl

  const HostSuffix: string := "-apia.coolkit."

  /** `getRegionUrl(region)`: `https://<region>-apia.coolkit.<tld>`, where the
      top-level domain is `cn` for the region `cn` and `cc` for every other. */
  function GetRegionUrl(region: string): (url: string)
    ensures Text.StartsWith(url, "https://")
    ensures |url| == 8 + |region| + 16
    ensures url[8..8 + |region|] == region
    ensures url[|url| - 2..] == (if region == "cn" then "cn" else "cc")
  {
    var tld := if region == "cn" then "cn" else "cc";
    "https://" + region + HostSuffix + tld
  }

  /** The region a host URL names, if it is one that `GetRegionUrl` writes. */
  function RegionOf(url: string): Option<string> {
    if |url| < 24 || url[..8] != "https://" then None
    else
      var region := url[8..|url| - 16];
      var tld := if region == "cn" then "cn" else "cc";
      if url[|url| - 16..] == HostSuffix + tld then Some(region) else None
  }

  /** Every region gets back from its URL, so no two regions share a host. */
  lemma RegionOfGetRegionUrl(region: string)
    ensures RegionOf(GetRegionUrl(region)) == Some(region)
  {
    var url := GetRegionUrl(region);
    assert url[8..|url| - 16] == region;
    assert url[|url| - 16..] == HostSuffix + (if region == "cn" then "cn" else "cc");
  }

  lemma GetRegionUrlInjective(r1: string, r2: string)
    requires GetRegionUrl(r1) == GetRegionUrl(r2)
    ensures r1 == r2
  {
    RegionOfGetRegionUrl(r1);
    RegionOfGetRegionUrl(r2);
  }

  /** The two kinds of host. */
  lemma RegionUrls(region: string)
    ensures GetRegionUrl("cn") == "https://cn-apia.coolkit.cn"
    ensures region != "cn" ==> GetRegionUrl(region) == "https://" + region + "-apia.coolkit.cc"
  {
  }
}
