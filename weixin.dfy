/**
 * `WeiXin`: the credential broker of a WeChat third-party platform. It
 * keeps the platform's verify ticket and access token, and each authorized
 * account's refresh and access tokens, in a key/value cache with a
 * lifetime per entry, and fetches what is missing from the platform's API.
 *
 * The cache (the subclass's `setCache`/`getCache`) is a map from key to
 * entry with an optional expiry moment on a clock; the HTTP transport is
 * the oracle `remote`, which answers the n-th request with an already
 * decoded JSON value or a transport failure. Each operation is a function
 * on the broker's `World` (cache, clock, requests sent so far); the class
 * `WeiXin` performs the same steps in place and is proved to agree.
 */
module WeiXinPlatform {
  import opened Wrappers
  import opened PhpText
  import opened PhpArray

  /** A value `json_decode($s, true)` can produce: a scalar, or an array with string keys. */
  datatype Json = Scalar(v: Value) | Obj(fields: seq<(string, Json)>)

  const JNull := Scalar(VNull)

  function JStr(s: string): Json { Scalar(VStr(s)) }

  /** PHP truthiness: an array is truthy when it is not empty. */
  predicate JTruthy(j: Json)
  {
    match j
    case Scalar(v) => Truthy(v)
    case Obj(f) => f != []
  }

  /** `intval($j)`: an array gives 0 when empty and 1 otherwise. */
  function JIntval(j: Json): int
  {
    match j
    case Scalar(v) => IntCast(v)
    case Obj(f) => if f == [] then 0 else 1
  }

  /** `sprintf('%s', $j)`. */
  function Text(j: Json): string
  {
    match j
    case Scalar(v) => StrVal(v)
    case Obj(_) => "Array"
  }

  /** The first entry for `k`, or null. */
  function Lookup(f: seq<(string, Json)>, k: string): (r: Json)
    ensures r != JNull ==> (k, r) in f
    ensures (forall i :: 0 <= i < |f| ==> f[i].0 != k) ==> r == JNull
    ensures f != [] && f[0].0 == k ==> r == f[0].1
  {
    if f == [] then JNull
    else if f[0].0 == k then f[0].1
    else
      var r := Lookup(f[1..], k);
      assert r != JNull ==> (k, r) in f by {
        assert f == [f[0]] + f[1..];
      }
      r
  }

  lemma {:induction false} LookupAt(f: seq<(string, Json)>, k: string, i: int)
    requires 0 <= i < |f| && f[i].0 == k
    requires forall j :: 0 <= j < i ==> f[j].0 != k
    ensures Lookup(f, k) == f[i].1
    decreases i
  {
    if i > 0 {
      LookupAt(f[1..], k, i - 1);
    }
  }

  /** `$j[k]` on decoded data: the entry of an array, and null on anything else or when missing. */
  function Field(j: Json, k: string): (r: Json)
    ensures !j.Obj? ==> r == JNull
    ensures r != JNull ==> j.Obj? && (k, r) in j.fields
  {
    match j
    case Scalar(_) => JNull
    case Obj(f) => Lookup(f, k)
  }

  /** `isset($j[k])`. */
  predicate JIsset(j: Json, k: string) { Field(j, k) != JNull }

  /** PHP 8 `$j == 0` for a set value; numeric strings are whole numbers with optional blanks around them. */
  predicate LooseZero(j: Json)
  {
    match j
    case Scalar(VInt(i)) => i == 0
    case Scalar(VBool(b)) => !b
    case Scalar(VStr(s)) => IntegerString(s) && StringToInt(s) == 0
    case Scalar(VNull) => true
    case Obj(_) => false
  }

  /** Leading blanks, an optional sign, at least one digit, trailing blanks. */
  predicate IntegerString(s: string)
  {
    var t := SkipSpace(s);
    var u := if t != [] && (t[0] == '-' || t[0] == '+') then t[1..] else t;
    var d := LeadingDigits(u);
    d != [] && forall i :: |d| <= i < |u| ==> IsPhpSpace(u[i])
  }

  // The cache.

  /** A cached value and the moment it stops being served; `None` never expires. */
  datatype Entry = Entry(value: Json, expiresAt: Option<int>)

  predicate Live(e: Entry, clock: int)
  {
    e.expiresAt.None? || clock < e.expiresAt.value
  }

  /** A request as it is sent: the full URL and the body `json_encode` writes. */
  datatype Request = Request(url: string, body: Json)

  /** What the transport gives back: the decoded body (null when it is not JSON), or a failure. */
  datatype Reply = Answered(data: Json) | Failed(message: string)

  /** The transport and the platform behind it; the second argument is the number of requests sent before. */
  type Remote = (Request, nat) -> Reply

  /** All the broker can change or observe: the cache, the clock it expires against, the requests sent. */
  datatype World = World(cache: map<string, Entry>, clock: int, sent: seq<Request>)

  /** What the constructor stores. */
  datatype App = App(appId: string, appSecret: string)

  datatype BrokerError =
    | TransportFailed(message: string)           // `post`: the HTTP status was not 200
    | ApiError(errmsg: Json, errcode: Json)       // the platform answered with an `errcode`
    | ComponentTokenFailed(message: string)      // no component access token in the answer
    | AuthorizationFailed(message: string)       // no authorization info in the answer

  const VerifyTicketPrefix := "wx:component:verify:ticket:"
  const ComponentTokenPrefix := "wx:component:access:token:"
  const RefreshTokenPrefix := "wx:authorizer:refresh:token:"
  const AuthorizerTokenPrefix := "wx:authorizer:access:token:"

  const ApiBase := "https://api.weixin.qq.com/cgi-bin/component"
  const ComponentTokenPath := "/api_component_token"
  const PreAuthCodePath := "/api_create_preauthcode?component_access_token="
  const AuthorizationInfoPath := "/api_query_auth?component_access_token="
  const AuthorizerTokenPath := "/api_authorizer_token?component_access_token="
  const AuthorizerInfoPath := "/api_get_authorizer_info?component_access_token="
  const GetOptionPath := "/api_get_authorizer_option?component_access_token="
  const SetOptionPath := "/api_set_authorizer_option?component_access_token="

  const AuthorizationFailure := "使用授权码换取公众号的接口调用凭据和授权信息失败"

  function ComponentTokenFailure(appId: string): string
  {
    "获取第三方（appid:" + appId + "）平台 component_access_token 失败"
  }

  function VerifyTicketKey(appId: string): string { VerifyTicketPrefix + appId }
  function ComponentTokenKey(appId: string): string { ComponentTokenPrefix + appId }
  function RefreshTokenKey(authorizerAppId: string): string { RefreshTokenPrefix + authorizerAppId }
  function AuthorizerTokenKey(authorizerAppId: string): string { AuthorizerTokenPrefix + authorizerAppId }

  /** `getCache`: the value while it is live, otherwise null. */
  function CacheGet(w: World, key: string): (r: Json)
    ensures key !in w.cache ==> r == JNull
    ensures key in w.cache && Live(w.cache[key], w.clock) ==> r == w.cache[key].value
    ensures key in w.cache && !Live(w.cache[key], w.clock) ==> r == JNull
  {
    if key in w.cache && Live(w.cache[key], w.clock) then w.cache[key].value else JNull
  }

  /** `setCache($key, $value, $expired)`: `expired` seconds from now, or no expiry when null. */
  function CachePut(w: World, key: string, value: Json, expired: Option<int>): (r: World)
    ensures r.clock == w.clock && r.sent == w.sent
    ensures key in r.cache && r.cache[key].value == value
    ensures expired.None? ==> r.cache[key].expiresAt.None?
    ensures expired.Some? ==> r.cache[key].expiresAt == Some(w.clock + expired.value)
    ensures forall k :: k != key ==> CacheGet(r, k) == CacheGet(w, k)
    ensures expired.None? || expired.value > 0 ==> CacheGet(r, key) == value
  {
    var at := if expired.None? then None else Some(w.clock + expired.value);
    w.(cache := w.cache[key := Entry(value, at)])
  }

  /** The clock moving on between calls. */
  function After(w: World, seconds: nat): (r: World)
    ensures r.cache == w.cache && r.sent == w.sent && r.clock == w.clock + seconds
  {
    w.(clock := w.clock + seconds)
  }

  /** `post`: the request is sent to the platform whatever comes back; a failed transfer is an error. */
  function Send(remote: Remote, w: World, path: string, body: Json): (r: (Result<Json, BrokerError>, World))
    ensures r.1 == w.(sent := w.sent + [Request(ApiBase + path, body)])
    ensures remote(Request(ApiBase + path, body), |w.sent|).Answered? ==> r.0 == Ok(remote(Request(ApiBase + path, body), |w.sent|).data)
    ensures remote(Request(ApiBase + path, body), |w.sent|).Failed? ==> r.0 == Err(TransportFailed(remote(Request(ApiBase + path, body), |w.sent|).message))
  {
    var req := Request(ApiBase + path, body);
    var w' := w.(sent := w.sent + [req]);
    match remote(req, |w.sent|)
    case Failed(e) => (Err(TransportFailed(e)), w')
    case Answered(data) => (Ok(data), w')
  }

  /** The lifetime of a fetched token: `expires_in` less 100 seconds, or an hour when it is not set. */
  function TokenTtl(data: Json): (r: int)
    ensures JIsset(data, "expires_in") ==> r == JIntval(Field(data, "expires_in")) - 100
    ensures !JIsset(data, "expires_in") ==> r == 3600
  {
    if JIsset(data, "expires_in") then JIntval(Field(data, "expires_in")) - 100 else 3600
  }

  /** The same rule in `getAuthorizationInfo`, which tests `expires_in` for truthiness instead. */
  function InfoTtl(info: Json): (r: int)
    ensures JTruthy(Field(info, "expires_in")) ==> r == JIntval(Field(info, "expires_in")) - 100
    ensures !JTruthy(Field(info, "expires_in")) ==> r == 3600
  {
    if JTruthy(Field(info, "expires_in")) then JIntval(Field(info, "expires_in")) - 100 else 3600
  }

  // The operations, on worlds.

  function SetVerifyTicket(app: App, w: World, ticket: Json): World
  {
    CachePut(w, VerifyTicketKey(app.appId), ticket, None)
  }

  function SetRefreshToken(w: World, authorizerAppId: string, token: Json): World
  {
    CachePut(w, RefreshTokenKey(authorizerAppId), token, None)
  }

  function SetAuthorizerToken(w: World, authorizerAppId: string, token: Json, expired: int): World
  {
    CachePut(w, AuthorizerTokenKey(authorizerAppId), token, Some(expired))
  }

  function ComponentTokenRequest(app: App, w: World): Json
  {
    Obj([("component_appid", JStr(app.appId)), ("component_appsecret", JStr(app.appSecret)),
         ("component_verify_ticket", CacheGet(w, VerifyTicketKey(app.appId)))])
  }

  /** `getComponentAccessToken`: a live truthy cached token, or a issued one that is then cached. */
  function ComponentAccessToken(app: App, remote: Remote, w: World): (Result<Json, BrokerError>, World)
  {
    var key := ComponentTokenKey(app.appId);
    var token := CacheGet(w, key);
    if JTruthy(token) then (Ok(token), w)
    else
      var sent := Send(remote, w, ComponentTokenPath, ComponentTokenRequest(app, w));
      if sent.0.Err? then (Err(sent.0.error), sent.1)
      else
        var data := sent.0.value;
        var issued := Field(data, "component_access_token");
        if JTruthy(issued) then (Ok(issued), CachePut(sent.1, key, issued, Some(TokenTtl(data))))
        else (Err(ComponentTokenFailed(ComponentTokenFailure(app.appId))), sent.1)
  }

  function RefreshRequest(app: App, w: World, authorizerAppId: string): Json
  {
    Obj([("component_appid", JStr(app.appId)), ("authorizer_appid", JStr(authorizerAppId)),
         ("authorizer_refresh_token", CacheGet(w, RefreshTokenKey(authorizerAppId)))])
  }

  /** `refreshAuthorizerAccessToken`: the cached refresh token, whatever it is, exchanged for new tokens. */
  function RefreshAuthorizerToken(app: App, remote: Remote, w: World, authorizerAppId: string): (Result<Json, BrokerError>, World)
  {
    var body := RefreshRequest(app, w, authorizerAppId);
    var c := ComponentAccessToken(app, remote, w);
    if c.0.Err? then c
    else Send(remote, c.1, AuthorizerTokenPath + Text(c.0.value), body)
  }

  /** `getAuthorizerAccessToken`. */
  function AuthorizerAccessToken(app: App, remote: Remote, w: World, authorizerAppId: string): (Result<Json, BrokerError>, World)
  {
    var token := CacheGet(w, AuthorizerTokenKey(authorizerAppId));
    if JTruthy(token) then (Ok(token), w)
    else
      var refreshed := RefreshAuthorizerToken(app, remote, w, authorizerAppId);
      if refreshed.0.Err? then refreshed
      else
        var data := refreshed.0.value;
        if JIsset(data, "errcode") then (Err(ApiError(Field(data, "errmsg"), Field(data, "errcode"))), refreshed.1)
        else
          var issued := Field(data, "authorizer_access_token");
          (Ok(issued), SetAuthorizerToken(refreshed.1, authorizerAppId, issued, TokenTtl(data)))
  }

  /** `getPreAuthCode`. */
  function PreAuthCode(app: App, remote: Remote, w: World): (Result<Json, BrokerError>, World)
  {
    var c := ComponentAccessToken(app, remote, w);
    if c.0.Err? then c
    else
      var sent := Send(remote, c.1, PreAuthCodePath + Text(c.0.value), Obj([("component_appid", JStr(app.appId))]));
      if sent.0.Err? then sent
      else
        var code := Field(sent.0.value, "pre_auth_code");
        (Ok(if code != JNull then code else JStr("")), sent.1)
  }

  /** `getAuthorizationInfo`. */
  function AuthorizationInfo(app: App, remote: Remote, w: World, authorizationCode: string): (Result<Json, BrokerError>, World)
  {
    var body := Obj([("component_appid", JStr(app.appId)), ("authorization_code", JStr(authorizationCode))]);
    var c := ComponentAccessToken(app, remote, w);
    if c.0.Err? then c
    else
      var sent := Send(remote, c.1, AuthorizationInfoPath + Text(c.0.value), body);
      if sent.0.Err? then sent
      else
        var data := sent.0.value;
        if !data.Obj? || !JIsset(data, "authorization_info") then (Err(AuthorizationFailed(AuthorizationFailure)), sent.1)
        else
          var info := Field(data, "authorization_info");
          var id := Text(Field(info, "authorizer_appid"));
          var w1 := SetRefreshToken(sent.1, id, Field(info, "authorizer_refresh_token"));
          (Ok(info), SetAuthorizerToken(w1, id, Field(info, "authorizer_access_token"), InfoTtl(info)))
  }

  /** `getAuthorizerInfo`. */
  function AuthorizerInfo(app: App, remote: Remote, w: World, authorizerAppId: string): (Result<Json, BrokerError>, World)
  {
    var c := ComponentAccessToken(app, remote, w);
    if c.0.Err? then c
    else
      var body := Obj([("component_appid", JStr(app.appId)), ("authorizer_appid", JStr(authorizerAppId))]);
      var sent := Send(remote, c.1, AuthorizerInfoPath + Text(c.0.value), body);
      if sent.0.Err? then sent
      else
        var data := sent.0.value;
        if JIsset(data, "errcode") then (Err(ApiError(Field(data, "errmsg"), Field(data, "errcode"))), sent.1)
        else (Ok(Field(data, "authorizer_info")), sent.1)
  }

  function OptionRequest(app: App, authorizerAppId: string, option: string): Json
  {
    Obj([("component_appid", JStr(app.appId)), ("authorizer_appid", JStr(authorizerAppId)), ("option_name", JStr(option))])
  }

  /** `getAuthorizerOption`: the decoded answer as it is. */
  function AuthorizerOption(app: App, remote: Remote, w: World, authorizerAppId: string, option: string): (Result<Json, BrokerError>, World)
  {
    var body := OptionRequest(app, authorizerAppId, option);
    var c := ComponentAccessToken(app, remote, w);
    if c.0.Err? then c
    else Send(remote, c.1, GetOptionPath + Text(c.0.value), body)
  }

  function SetOptionRequest(app: App, authorizerAppId: string, option: string, value: Json): Json
  {
    Obj([("component_appid", JStr(app.appId)), ("authorizer_appid", JStr(authorizerAppId)), ("option_name", JStr(option)),
         ("option_value", value)])
  }

  /** Whether a `setAuthorizerOption` answer reports success. */
  predicate OptionAccepted(data: Json)
  {
    JIsset(data, "errcode") && LooseZero(Field(data, "errcode"))
  }

  /** `setAuthorizerOption`. */
  function UpdateAuthorizerOption(app: App, remote: Remote, w: World, authorizerAppId: string, option: string, value: Json)
    : (Result<bool, BrokerError>, World)
  {
    var body := SetOptionRequest(app, authorizerAppId, option, value);
    var c := ComponentAccessToken(app, remote, w);
    if c.0.Err? then (Err(c.0.error), c.1)
    else
      var sent := Send(remote, c.1, SetOptionPath + Text(c.0.value), body);
      if sent.0.Err? then (Err(sent.0.error), sent.1)
      else (Ok(OptionAccepted(sent.0.value)), sent.1)
  }

  // Properties of the operations.

  /** Keys built from different templates never meet, whatever the ids. */
  lemma CacheKeysDistinct(a: string, b: string)
    ensures VerifyTicketKey(a) != ComponentTokenKey(b)
    ensures VerifyTicketKey(a) != RefreshTokenKey(b) && VerifyTicketKey(a) != AuthorizerTokenKey(b)
    ensures ComponentTokenKey(a) != RefreshTokenKey(b) && ComponentTokenKey(a) != AuthorizerTokenKey(b)
    ensures RefreshTokenKey(a) != AuthorizerTokenKey(b)
  {
    assert VerifyTicketKey(a)[13] == 'v' && ComponentTokenKey(b)[13] == 'a';
    assert VerifyTicketKey(a)[3] == 'c' && RefreshTokenKey(b)[3] == 'a' && AuthorizerTokenKey(b)[3] == 'a';
    assert ComponentTokenKey(a)[3] == 'c';
    assert RefreshTokenKey(a)[14] == 'r' && AuthorizerTokenKey(b)[14] == 'a';
  }

  lemma PrefixInjective(p: string, a: string, b: string)
    ensures p + a == p + b <==> a == b
  {
    if p + a == p + b {
      assert a == (p + a)[|p|..];
      assert b == (p + b)[|p|..];
    }
  }

  /** Each template gives different keys to different ids. */
  lemma CacheKeysInjective(a: string, b: string)
    ensures VerifyTicketKey(a) == VerifyTicketKey(b) <==> a == b
    ensures ComponentTokenKey(a) == ComponentTokenKey(b) <==> a == b
    ensures RefreshTokenKey(a) == RefreshTokenKey(b) <==> a == b
    ensures AuthorizerTokenKey(a) == AuthorizerTokenKey(b) <==> a == b
  {
    PrefixInjective(VerifyTicketPrefix, a, b);
    PrefixInjective(ComponentTokenPrefix, a, b);
    PrefixInjective(RefreshTokenPrefix, a, b);
    PrefixInjective(AuthorizerTokenPrefix, a, b);
  }

  /** An entry stored without expiry is served at every later moment. */
  lemma NoExpiryOutlivesClock(w: World, key: string, value: Json, seconds: nat)
    ensures CacheGet(After(CachePut(w, key, value, None), seconds), key) == value
  {
  }

  /** An entry stored with a lifetime is served exactly while that lifetime has not run out. */
  lemma LifetimeRunsOut(w: World, key: string, value: Json, ttl: int, seconds: nat)
    ensures CacheGet(After(CachePut(w, key, value, Some(ttl)), seconds), key) == (if seconds < ttl then value else JNull)
  {
  }

  /** The verify ticket is kept with no lifetime. */
  lemma VerifyTicketNeverExpires(app: App, w: World, ticket: Json, seconds: nat)
    ensures CacheGet(After(SetVerifyTicket(app, w, ticket), seconds), VerifyTicketKey(app.appId)) == ticket
  {
    NoExpiryOutlivesClock(w, VerifyTicketKey(app.appId), ticket, seconds);
  }

  /** An authorizer's refresh token is kept with no lifetime. */
  lemma RefreshTokenNeverExpires(w: World, authorizerAppId: string, token: Json, seconds: nat)
    ensures CacheGet(After(SetRefreshToken(w, authorizerAppId, token), seconds), RefreshTokenKey(authorizerAppId)) == token
  {
    NoExpiryOutlivesClock(w, RefreshTokenKey(authorizerAppId), token, seconds);
  }

  /** A live, truthy cached component token is returned and nothing is sent or stored. */
  lemma ComponentTokenHit(app: App, remote: Remote, w: World)
    requires JTruthy(CacheGet(w, ComponentTokenKey(app.appId)))
    ensures ComponentAccessToken(app, remote, w) == (Ok(CacheGet(w, ComponentTokenKey(app.appId))), w)
  {
  }

  /**
   * Otherwise one request carrying the id, the secret and the cached verify
   * ticket is sent; a truthy token in the answer is returned and cached for
   * `TokenTtl` seconds, and anything else is an error that stores nothing.
   */
  lemma ComponentTokenMiss(app: App, remote: Remote, w: World)
    requires !JTruthy(CacheGet(w, ComponentTokenKey(app.appId)))
    ensures var r := ComponentAccessToken(app, remote, w);
      var req := Request(ApiBase + ComponentTokenPath, ComponentTokenRequest(app, w));
      var reply := remote(req, |w.sent|);
      r.1.sent == w.sent + [req] && r.1.clock == w.clock &&
      (reply.Answered? && JTruthy(Field(reply.data, "component_access_token")) ==>
        r.0 == Ok(Field(reply.data, "component_access_token")) &&
        r.1.cache == w.cache[ComponentTokenKey(app.appId) :=
          Entry(Field(reply.data, "component_access_token"), Some(w.clock + TokenTtl(reply.data)))]) &&
      (!(reply.Answered? && JTruthy(Field(reply.data, "component_access_token"))) ==>
        r.0.Err? && r.1.cache == w.cache)
  {
  }

  /** However it ends, fetching the component token writes at most its own key. */
  lemma ComponentTokenWritesOnlyItsKey(app: App, remote: Remote, w: World, key: string)
    requires key != ComponentTokenKey(app.appId)
    ensures key in ComponentAccessToken(app, remote, w).1.cache <==> key in w.cache
    ensures key in w.cache ==> ComponentAccessToken(app, remote, w).1.cache[key] == w.cache[key]
    ensures ComponentAccessToken(app, remote, w).1.clock == w.clock
  {
  }

  /** A live, truthy cached authorizer token is returned and nothing is sent or stored. */
  lemma AuthorizerTokenHit(app: App, remote: Remote, w: World, authorizerAppId: string)
    requires JTruthy(CacheGet(w, AuthorizerTokenKey(authorizerAppId)))
    ensures AuthorizerAccessToken(app, remote, w, authorizerAppId) == (Ok(CacheGet(w, AuthorizerTokenKey(authorizerAppId))), w)
  {
  }

  /** The refresh request carries whatever the cache holds for the refresh token, null included. */
  lemma RefreshSendsCachedToken(app: App, remote: Remote, w: World, authorizerAppId: string)
    requires ComponentAccessToken(app, remote, w).0.Ok?
    ensures var c := ComponentAccessToken(app, remote, w);
      RefreshAuthorizerToken(app, remote, w, authorizerAppId).1.sent
        == c.1.sent + [Request(ApiBase + (AuthorizerTokenPath + Text(c.0.value)), RefreshRequest(app, w, authorizerAppId))]
    ensures Field(RefreshRequest(app, w, authorizerAppId), "authorizer_refresh_token") == CacheGet(w, RefreshTokenKey(authorizerAppId))
  {
    LookupAt(RefreshRequest(app, w, authorizerAppId).fields, "authorizer_refresh_token", 2);
  }

  /**
   * On a miss, an answer with `errcode` is an error that stores nothing
   * beyond what fetching the component token stored; any other answer's
   * `authorizer_access_token` is returned and cached for `TokenTtl` seconds.
   */
  lemma AuthorizerTokenMiss(app: App, remote: Remote, w: World, authorizerAppId: string)
    requires !JTruthy(CacheGet(w, AuthorizerTokenKey(authorizerAppId)))
    requires ComponentAccessToken(app, remote, w).0.Ok?
    ensures var c := ComponentAccessToken(app, remote, w);
      var req := Request(ApiBase + (AuthorizerTokenPath + Text(c.0.value)), RefreshRequest(app, w, authorizerAppId));
      var reply := remote(req, |c.1.sent|);
      var r := AuthorizerAccessToken(app, remote, w, authorizerAppId);
      (reply.Failed? ==> r.0 == Err(TransportFailed(reply.message)) && r.1.cache == c.1.cache) &&
      (reply.Answered? && JIsset(reply.data, "errcode") ==>
        r.0 == Err(ApiError(Field(reply.data, "errmsg"), Field(reply.data, "errcode"))) && r.1.cache == c.1.cache) &&
      (reply.Answered? && !JIsset(reply.data, "errcode") ==>
        r.0 == Ok(Field(reply.data, "authorizer_access_token")) &&
        r.1.cache == c.1.cache[AuthorizerTokenKey(authorizerAppId) :=
          Entry(Field(reply.data, "authorizer_access_token"), Some(c.1.clock + TokenTtl(reply.data)))])
  {
  }

  /**
   * A component token fetched on a miss is served from the cache, with no
   * request, for exactly `TokenTtl` seconds; the first call after that sends
   * a new request.
   */
  lemma ComponentTokenLifecycle(app: App, remote: Remote, w: World, seconds: nat)
    requires !JTruthy(CacheGet(w, ComponentTokenKey(app.appId)))
    requires var reply := remote(Request(ApiBase + ComponentTokenPath, ComponentTokenRequest(app, w)), |w.sent|);
      reply.Answered? && JTruthy(Field(reply.data, "component_access_token"))
    ensures var reply := remote(Request(ApiBase + ComponentTokenPath, ComponentTokenRequest(app, w)), |w.sent|);
      var r := ComponentAccessToken(app, remote, w);
      var later := After(r.1, seconds);
      (seconds < TokenTtl(reply.data) ==>
        ComponentAccessToken(app, remote, later) == (Ok(Field(reply.data, "component_access_token")), later)) &&
      (seconds >= TokenTtl(reply.data) ==>
        ComponentAccessToken(app, remote, later).1.sent
          == r.1.sent + [Request(ApiBase + ComponentTokenPath, ComponentTokenRequest(app, later))])
  {
    var key := ComponentTokenKey(app.appId);
    var req := Request(ApiBase + ComponentTokenPath, ComponentTokenRequest(app, w));
    var reply := remote(req, |w.sent|);
    var issued := Field(reply.data, "component_access_token");
    var sent := w.(sent := w.sent + [req]);
    var r := ComponentAccessToken(app, remote, w);
    assert r.1 == CachePut(sent, key, issued, Some(TokenTtl(reply.data)));
    LifetimeRunsOut(sent, key, issued, TokenTtl(reply.data), seconds);
    var later := After(r.1, seconds);
    if seconds < TokenTtl(reply.data) {
      ComponentTokenHit(app, remote, later);
    } else {
      ComponentTokenMiss(app, remote, later);
    }
  }

  /**
   * An authorizer token fetched on a miss is served from the cache, with no
   * request, for exactly `TokenTtl` seconds; the first call after that sends
   * the refresh request again, once the component token is known.
   */
  lemma AuthorizerTokenLifecycle(app: App, remote: Remote, w: World, authorizerAppId: string, seconds: nat)
    requires !JTruthy(CacheGet(w, AuthorizerTokenKey(authorizerAppId)))
    requires ComponentAccessToken(app, remote, w).0.Ok?
    requires var c := ComponentAccessToken(app, remote, w);
      var reply := remote(Request(ApiBase + (AuthorizerTokenPath + Text(c.0.value)), RefreshRequest(app, w, authorizerAppId)), |c.1.sent|);
      reply.Answered? && !JIsset(reply.data, "errcode") && JTruthy(Field(reply.data, "authorizer_access_token"))
    ensures var c := ComponentAccessToken(app, remote, w);
      var reply := remote(Request(ApiBase + (AuthorizerTokenPath + Text(c.0.value)), RefreshRequest(app, w, authorizerAppId)), |c.1.sent|);
      var r := AuthorizerAccessToken(app, remote, w, authorizerAppId);
      var later := After(r.1, seconds);
      var c2 := ComponentAccessToken(app, remote, later);
      (seconds < TokenTtl(reply.data) ==>
        AuthorizerAccessToken(app, remote, later, authorizerAppId) == (Ok(Field(reply.data, "authorizer_access_token")), later)) &&
      (seconds >= TokenTtl(reply.data) && c2.0.Ok? ==>
        AuthorizerAccessToken(app, remote, later, authorizerAppId).1.sent
          == c2.1.sent + [Request(ApiBase + (AuthorizerTokenPath + Text(c2.0.value)), RefreshRequest(app, later, authorizerAppId))])
  {
    var key := AuthorizerTokenKey(authorizerAppId);
    var c := ComponentAccessToken(app, remote, w);
    var req := Request(ApiBase + (AuthorizerTokenPath + Text(c.0.value)), RefreshRequest(app, w, authorizerAppId));
    var reply := remote(req, |c.1.sent|);
    var issued := Field(reply.data, "authorizer_access_token");
    var refreshed := c.1.(sent := c.1.sent + [req]);
    var r := AuthorizerAccessToken(app, remote, w, authorizerAppId);
    assert r.1 == CachePut(refreshed, key, issued, Some(TokenTtl(reply.data)));
    LifetimeRunsOut(refreshed, key, issued, TokenTtl(reply.data), seconds);
    var later := After(r.1, seconds);
    if seconds < TokenTtl(reply.data) {
      AuthorizerTokenHit(app, remote, later, authorizerAppId);
    } else if ComponentAccessToken(app, remote, later).0.Ok? {
      RefreshSendsCachedToken(app, remote, later, authorizerAppId);
    }
  }

  /** A lifetime sent as the decimal text of n seconds is read as n less 100. */
  lemma TokenTtlOfDecimal(data: Json, n: int)
    requires Field(data, "expires_in") == JStr(IntToString(n))
    ensures TokenTtl(data) == n - 100
  {
    IntToStringRoundTrip(n);
  }

  /** The pre-auth code is never stored, and an answer without one gives "". */
  lemma PreAuthCodeNotStored(app: App, remote: Remote, w: World)
    ensures PreAuthCode(app, remote, w).1.cache == ComponentAccessToken(app, remote, w).1.cache
    ensures var c := ComponentAccessToken(app, remote, w);
      c.0.Ok? ==>
        var reply := remote(Request(ApiBase + (PreAuthCodePath + Text(c.0.value)), Obj([("component_appid", JStr(app.appId))])), |c.1.sent|);
        reply.Answered? && !JIsset(reply.data, "pre_auth_code") ==> PreAuthCode(app, remote, w).0 == Ok(JStr(""))
  {
  }

  /** The request `getAuthorizationInfo` sends once the component token `token` is known. */
  function AuthorizationRequest(app: App, authorizationCode: string, token: Json): Request
  {
    Request(ApiBase + (AuthorizationInfoPath + Text(token)),
            Obj([("component_appid", JStr(app.appId)), ("authorization_code", JStr(authorizationCode))]))
  }

  /** An answer that is not an array with an `authorization_info` entry fails and stores nothing. */
  lemma AuthorizationInfoRefused(app: App, remote: Remote, w: World, authorizationCode: string)
    requires ComponentAccessToken(app, remote, w).0.Ok?
    requires var c := ComponentAccessToken(app, remote, w);
      var reply := remote(AuthorizationRequest(app, authorizationCode, c.0.value), |c.1.sent|);
      reply.Answered? && !(reply.data.Obj? && JIsset(reply.data, "authorization_info"))
    ensures AuthorizationInfo(app, remote, w, authorizationCode).0 == Err(AuthorizationFailed(AuthorizationFailure))
    ensures AuthorizationInfo(app, remote, w, authorizationCode).1.cache == ComponentAccessToken(app, remote, w).1.cache
  {
  }

  /**
   * An answer with `authorization_info` stores the refresh token with no
   * lifetime and the access token for `InfoTtl` seconds, both under the
   * authorizer's id, changes no other entry, and returns the info as it came.
   */
  lemma AuthorizationInfoStored(app: App, remote: Remote, w: World, authorizationCode: string)
    requires ComponentAccessToken(app, remote, w).0.Ok?
    requires var c := ComponentAccessToken(app, remote, w);
      var reply := remote(AuthorizationRequest(app, authorizationCode, c.0.value), |c.1.sent|);
      reply.Answered? && reply.data.Obj? && JIsset(reply.data, "authorization_info")
    ensures var c := ComponentAccessToken(app, remote, w);
      var info := Field(remote(AuthorizationRequest(app, authorizationCode, c.0.value), |c.1.sent|).data, "authorization_info");
      var id := Text(Field(info, "authorizer_appid"));
      var r := AuthorizationInfo(app, remote, w, authorizationCode);
      r.0 == Ok(info) &&
      r.1.cache[RefreshTokenKey(id)] == Entry(Field(info, "authorizer_refresh_token"), None) &&
      r.1.cache[AuthorizerTokenKey(id)] == Entry(Field(info, "authorizer_access_token"), Some(c.1.clock + InfoTtl(info))) &&
      forall k :: k != RefreshTokenKey(id) && k != AuthorizerTokenKey(id) ==> CacheGet(r.1, k) == CacheGet(c.1, k)
  {
    var c := ComponentAccessToken(app, remote, w);
    var req := AuthorizationRequest(app, authorizationCode, c.0.value);
    var sent := Send(remote, c.1, AuthorizationInfoPath + Text(c.0.value), req.body);
    var info := Field(remote(req, |c.1.sent|).data, "authorization_info");
    var id := Text(Field(info, "authorizer_appid"));
    assert sent.0 == Ok(remote(req, |c.1.sent|).data);
    var w1 := SetRefreshToken(sent.1, id, Field(info, "authorizer_refresh_token"));
    var w2 := SetAuthorizerToken(w1, id, Field(info, "authorizer_access_token"), InfoTtl(info));
    assert AuthorizationInfo(app, remote, w, authorizationCode) == (Ok(info), w2);
    TokensStored(sent.1, id, Field(info, "authorizer_refresh_token"), Field(info, "authorizer_access_token"), InfoTtl(info));
  }

  /** Storing an authorizer's refresh token, then its access token, writes exactly those two entries. */
  lemma TokensStored(w: World, id: string, refresh: Json, access: Json, ttl: int)
    ensures var w2 := SetAuthorizerToken(SetRefreshToken(w, id, refresh), id, access, ttl);
      w2.cache[RefreshTokenKey(id)] == Entry(refresh, None) &&
      w2.cache[AuthorizerTokenKey(id)] == Entry(access, Some(w.clock + ttl)) &&
      forall k :: k != RefreshTokenKey(id) && k != AuthorizerTokenKey(id) ==> CacheGet(w2, k) == CacheGet(w, k)
  {
    CacheKeysDistinct(id, id);
  }

  /** `getAuthorizerInfo` stores nothing itself; an `errcode` is an error, otherwise `authorizer_info` is the result. */
  lemma AuthorizerInfoOutcome(app: App, remote: Remote, w: World, authorizerAppId: string)
    ensures AuthorizerInfo(app, remote, w, authorizerAppId).1.cache == ComponentAccessToken(app, remote, w).1.cache
    ensures var c := ComponentAccessToken(app, remote, w);
      c.0.Ok? ==>
        var body := Obj([("component_appid", JStr(app.appId)), ("authorizer_appid", JStr(authorizerAppId))]);
        var reply := remote(Request(ApiBase + (AuthorizerInfoPath + Text(c.0.value)), body), |c.1.sent|);
        var r := AuthorizerInfo(app, remote, w, authorizerAppId).0;
        (reply.Answered? && JIsset(reply.data, "errcode") ==> r == Err(ApiError(Field(reply.data, "errmsg"), Field(reply.data, "errcode")))) &&
        (reply.Answered? && !JIsset(reply.data, "errcode") ==> r == Ok(Field(reply.data, "authorizer_info")))
  {
  }

  /** `getAuthorizerOption` stores nothing itself and returns the decoded answer unchanged. */
  lemma AuthorizerOptionVerbatim(app: App, remote: Remote, w: World, authorizerAppId: string, option: string)
    ensures AuthorizerOption(app, remote, w, authorizerAppId, option).1.cache == ComponentAccessToken(app, remote, w).1.cache
    ensures var c := ComponentAccessToken(app, remote, w);
      c.0.Ok? ==>
        var reply := remote(Request(ApiBase + (GetOptionPath + Text(c.0.value)), OptionRequest(app, authorizerAppId, option)), |c.1.sent|);
        reply.Answered? ==> AuthorizerOption(app, remote, w, authorizerAppId, option).0 == Ok(reply.data)
  {
  }

  /** `setAuthorizerOption` stores nothing itself and reports whether the answer's `errcode` is set and equal to 0. */
  lemma UpdateAuthorizerOptionOutcome(app: App, remote: Remote, w: World, authorizerAppId: string, option: string, value: Json)
    ensures UpdateAuthorizerOption(app, remote, w, authorizerAppId, option, value).1.cache == ComponentAccessToken(app, remote, w).1.cache
    ensures var c := ComponentAccessToken(app, remote, w);
      c.0.Ok? ==>
        var req := Request(ApiBase + (SetOptionPath + Text(c.0.value)), SetOptionRequest(app, authorizerAppId, option, value));
        var reply := remote(req, |c.1.sent|);
        reply.Answered? ==> UpdateAuthorizerOption(app, remote, w, authorizerAppId, option, value).0 == Ok(OptionAccepted(reply.data))
  {
  }

  /** "0" is PHP-equal to 0. */
  lemma ZeroStringLooseZero()
    ensures LooseZero(JStr("0"))
  {
    ZeroStringInteger();
    ZeroStringValue();
  }

  lemma ZeroStringInteger()
    ensures IntegerString("0")
  {
    ZeroStringSkip();
    ZeroStringDigits();
  }

  lemma ZeroStringValue()
    ensures StringToInt("0") == 0
  {
    ZeroStringSkip();
    ZeroStringDigits();
  }

  lemma ZeroStringSkip()
    ensures SkipSpace("0") == "0"
  {
  }

  lemma ZeroStringDigits()
    ensures LeadingDigits("0") == "0" && DigitsValue("0") == 0
  {
    var z := "0";
    assert LeadingDigits(z[1..]) == [];
    assert z[..|z| - 1] == [];
  }

  /** `errcode` 0 is success, as a number or as a numeric string. */
  lemma OptionAcceptedZero()
    ensures OptionAccepted(Obj([("errcode", Scalar(VInt(0)))]))
    ensures OptionAccepted(Obj([("errcode", JStr("0"))]))
  {
    ZeroStringLooseZero();
  }

  /** Any other number is failure. */
  lemma OptionRejectedNonzero(c: int)
    requires c != 0
    ensures !OptionAccepted(Obj([("errcode", Scalar(VInt(c)))]))
  {
  }

  /** Under PHP 8 the empty string is not equal to 0. */
  lemma OptionRejectedEmptyString()
    ensures !OptionAccepted(Obj([("errcode", JStr(""))]))
  {
    assert SkipSpace("") == "";
  }

  /** An answer without `errcode`, or one that is not an array, is failure. */
  lemma OptionRejectedWithoutCode(c: Json)
    ensures !OptionAccepted(Obj([("errmsg", c)]))
    ensures !OptionAccepted(c) || c.Obj?
  {
  }

  /** The broker object: its identity, and the cache, clock and request log it works on. */
  class WeiXin {
    const appId: string
    const appSecret: string
    var cache: map<string, Entry>
    var clock: int
    var sent: seq<Request>

    /** The constructor stores the identity; the cache belongs to the subclass and exists already. */
    constructor (appId: string, appSecret: string, cache: map<string, Entry>, clock: int)
      ensures this.appId == appId && this.appSecret == appSecret
      ensures this.cache == cache && this.clock == clock && this.sent == []
    {
      this.appId := appId;
      this.appSecret := appSecret;
      this.cache := cache;
      this.clock := clock;
      this.sent := [];
    }

    function Identity(): App
    {
      App(appId, appSecret)
    }

    function State(): World
      reads this
    {
      World(cache, clock, sent)
    }

    /** The clock moving on between calls. */
    method Elapse(seconds: nat)
      modifies this
      ensures State() == After(old(State()), seconds)
    {
      clock := clock + seconds;
    }

    method GetCache(key: string) returns (v: Json)
      ensures v == CacheGet(State(), key)
    {
      if key in cache && Live(cache[key], clock) {
        v := cache[key].value;
      } else {
        v := JNull;
      }
    }

    method SetCache(key: string, value: Json, expired: Option<int> := None)
      modifies this
      ensures State() == CachePut(old(State()), key, value, expired)
    {
      var at := if expired.None? then None else Some(clock + expired.value);
      cache := cache[key := Entry(value, at)];
    }

    method Post(remote: Remote, path: string, body: Json) returns (r: Result<Json, BrokerError>)
      modifies this
      ensures (r, State()) == Send(remote, old(State()), path, body)
    {
      var req := Request(ApiBase + path, body);
      var reply := remote(req, |sent|);
      sent := sent + [req];
      match reply
      case Failed(e) =>
        r := Err(TransportFailed(e));
      case Answered(data) =>
        r := Ok(data);
    }

    method SetComponentVerifyTicket(ticket: Json)
      modifies this
      ensures State() == SetVerifyTicket(Identity(), old(State()), ticket)
    {
      SetCache(VerifyTicketKey(appId), ticket);
    }

    method GetComponentVerifyTicket() returns (ticket: Json)
      ensures ticket == CacheGet(State(), VerifyTicketKey(appId))
    {
      ticket := GetCache(VerifyTicketKey(appId));
    }

    method SetAuthorizerRefreshToken(authorizerAppId: string, token: Json)
      modifies this
      ensures State() == SetRefreshToken(old(State()), authorizerAppId, token)
    {
      SetCache(RefreshTokenKey(authorizerAppId), token);
    }

    method GetAuthorizerRefreshToken(authorizerAppId: string) returns (token: Json)
      ensures token == CacheGet(State(), RefreshTokenKey(authorizerAppId))
    {
      token := GetCache(RefreshTokenKey(authorizerAppId));
    }

    method SetAuthorizerAccessToken(authorizerAppId: string, token: Json, expired: int := 3600)
      modifies this
      ensures State() == SetAuthorizerToken(old(State()), authorizerAppId, token, expired)
    {
      SetCache(AuthorizerTokenKey(authorizerAppId), token, Some(expired));
    }

    method GetComponentAccessToken(remote: Remote) returns (r: Result<Json, BrokerError>)
      modifies this
      ensures (r, State()) == ComponentAccessToken(Identity(), remote, old(State()))
    {
      var tokenKey := ComponentTokenKey(appId);
      var token := GetCache(tokenKey);
      if JTruthy(token) {
        return Ok(token);
      }
      var ticket := GetComponentVerifyTicket();
      var params := Obj([("component_appid", JStr(appId)), ("component_appsecret", JStr(appSecret)),
                         ("component_verify_ticket", ticket)]);
      var reply := Post(remote, ComponentTokenPath, params);
      if reply.Err? {
        return Err(reply.error);
      }
      var data := reply.value;
      if JIsset(data, "component_access_token") && JTruthy(Field(data, "component_access_token")) {
        SetCache(tokenKey, Field(data, "component_access_token"), Some(TokenTtl(data)));
        return Ok(Field(data, "component_access_token"));
      }
      return Err(ComponentTokenFailed(ComponentTokenFailure(appId)));
    }

    method RefreshAuthorizerAccessToken(remote: Remote, authorizerAppId: string) returns (r: Result<Json, BrokerError>)
      modifies this
      ensures (r, State()) == RefreshAuthorizerToken(Identity(), remote, old(State()), authorizerAppId)
    {
      var refreshToken := GetAuthorizerRefreshToken(authorizerAppId);
      var data := Obj([("component_appid", JStr(appId)), ("authorizer_appid", JStr(authorizerAppId)),
                       ("authorizer_refresh_token", refreshToken)]);
      var token := GetComponentAccessToken(remote);
      if token.Err? {
        return Err(token.error);
      }
      r := Post(remote, AuthorizerTokenPath + Text(token.value), data);
    }

    method GetAuthorizerAccessToken(remote: Remote, authorizerAppId: string) returns (r: Result<Json, BrokerError>)
      modifies this
      ensures (r, State()) == AuthorizerAccessToken(Identity(), remote, old(State()), authorizerAppId)
    {
      ghost var before := State();
      var token := GetCache(AuthorizerTokenKey(authorizerAppId));
      if JTruthy(token) {
        return Ok(token);
      }
      var reply := RefreshAuthorizerAccessToken(remote, authorizerAppId);
      ghost var refreshed := State();
      assert (reply, refreshed) == RefreshAuthorizerToken(Identity(), remote, before, authorizerAppId);
      if reply.Err? {
        return Err(reply.error);
      }
      var data := reply.value;
      if JIsset(data, "errcode") {
        return Err(ApiError(Field(data, "errmsg"), Field(data, "errcode")));
      }
      SetAuthorizerAccessToken(authorizerAppId, Field(data, "authorizer_access_token"), TokenTtl(data));
      assert State() == SetAuthorizerToken(refreshed, authorizerAppId, Field(data, "authorizer_access_token"), TokenTtl(data));
      return Ok(Field(data, "authorizer_access_token"));
    }

    method GetPreAuthCode(remote: Remote) returns (r: Result<Json, BrokerError>)
      modifies this
      ensures (r, State()) == PreAuthCode(Identity(), remote, old(State()))
    {
      var token := GetComponentAccessToken(remote);
      if token.Err? {
        return Err(token.error);
      }
      var reply := Post(remote, PreAuthCodePath + Text(token.value), Obj([("component_appid", JStr(appId))]));
      if reply.Err? {
        return Err(reply.error);
      }
      var data := reply.value;
      return Ok(if JIsset(data, "pre_auth_code") then Field(data, "pre_auth_code") else JStr(""));
    }

    method GetAuthorizationInfo(remote: Remote, authorizationCode: string) returns (r: Result<Json, BrokerError>)
      modifies this
      ensures (r, State()) == AuthorizationInfo(Identity(), remote, old(State()), authorizationCode)
    {
      var data := Obj([("component_appid", JStr(appId)), ("authorization_code", JStr(authorizationCode))]);
      var token := GetComponentAccessToken(remote);
      if token.Err? {
        return Err(token.error);
      }
      var reply := Post(remote, AuthorizationInfoPath + Text(token.value), data);
      if reply.Err? {
        return Err(reply.error);
      }
      data := reply.value;
      if !data.Obj? || !JIsset(data, "authorization_info") {
        return Err(AuthorizationFailed(AuthorizationFailure));
      }
      var info := Field(data, "authorization_info");
      ghost var answered := State();
      SetAuthorizerRefreshToken(Text(Field(info, "authorizer_appid")), Field(info, "authorizer_refresh_token"));
      ghost var stored := State();
      assert stored == SetRefreshToken(answered, Text(Field(info, "authorizer_appid")), Field(info, "authorizer_refresh_token"));
      SetAuthorizerAccessToken(Text(Field(info, "authorizer_appid")), Field(info, "authorizer_access_token"), InfoTtl(info));
      assert State() == SetAuthorizerToken(stored, Text(Field(info, "authorizer_appid")), Field(info, "authorizer_access_token"), InfoTtl(info));
      return Ok(info);
    }

    method GetAuthorizerInfo(remote: Remote, authorizerAppId: string) returns (r: Result<Json, BrokerError>)
      modifies this
      ensures (r, State()) == AuthorizerInfo(Identity(), remote, old(State()), authorizerAppId)
    {
      var token := GetComponentAccessToken(remote);
      if token.Err? {
        return Err(token.error);
      }
      var reply := Post(remote, AuthorizerInfoPath + Text(token.value),
                        Obj([("component_appid", JStr(appId)), ("authorizer_appid", JStr(authorizerAppId))]));
      if reply.Err? {
        return Err(reply.error);
      }
      var data := reply.value;
      if JIsset(data, "errcode") {
        return Err(ApiError(Field(data, "errmsg"), Field(data, "errcode")));
      }
      return Ok(Field(data, "authorizer_info"));
    }

    method GetAuthorizerOption(remote: Remote, authorizerAppId: string, option: string) returns (r: Result<Json, BrokerError>)
      modifies this
      ensures (r, State()) == AuthorizerOption(Identity(), remote, old(State()), authorizerAppId, option)
    {
      var data := Obj([("component_appid", JStr(appId)), ("authorizer_appid", JStr(authorizerAppId)), ("option_name", JStr(option))]);
      var token := GetComponentAccessToken(remote);
      if token.Err? {
        return Err(token.error);
      }
      r := Post(remote, GetOptionPath + Text(token.value), data);
    }

    method SetAuthorizerOption(remote: Remote, authorizerAppId: string, option: string, value: Json) returns (r: Result<bool, BrokerError>)
      modifies this
      ensures (r, State()) == UpdateAuthorizerOption(Identity(), remote, old(State()), authorizerAppId, option, value)
    {
      var data := Obj([("component_appid", JStr(appId)), ("authorizer_appid", JStr(authorizerAppId)), ("option_name", JStr(option)),
                       ("option_value", value)]);
      var token := GetComponentAccessToken(remote);
      if token.Err? {
        return Err(token.error);
      }
      var reply := Post(remote, SetOptionPath + Text(token.value), data);
      if reply.Err? {
        return Err(reply.error);
      }
      return Ok(JIsset(reply.value, "errcode") && LooseZero(Field(reply.value, "errcode")));
    }
  }
}
