/** The OAuth2 adapter: its configuration check, the expiry test, the
    single-flight token fetch and the middleware that writes the
    `authorization` header. A pending callback is an object: `Begin`,
    `Succeed` and `Fail` are the points where the callback is called and
    where its promise settles. */
module OAuth {
  import opened Wrappers
  import opened Records
  import opened JsValues

  /** `isOAuth2Config`: an object whose clientId, clientSecret and grantType
      are strings and whose two callbacks are functions; a `scope`, when
      present, must be a string. The auth field is not looked at. */
  predicate IsOAuth2Config(v: Value) {
    IsObject(v) &&
    OAuth2Fields(Field(v, "clientId"), Field(v, "clientSecret"), Field(v, "grantType"),
                 Field(v, "accessTokenCallback"), Field(v, "refreshTokenCallback"), Field(v, "scope"))
  }

  /** The field checks of `isOAuth2Config`, on the fields as found (`None`
      when the key is missing). */
  predicate OAuth2Fields(clientId: Option<Value>, clientSecret: Option<Value>, grantType: Option<Value>,
                         accessTokenCallback: Option<Value>, refreshTokenCallback: Option<Value>, scope: Option<Value>) {
    clientId.Some? && IsString(clientId.value) &&
    clientSecret.Some? && IsString(clientSecret.value) &&
    grantType.Some? && IsString(grantType.value) &&
    accessTokenCallback.Some? && IsFunction(accessTokenCallback.value) &&
    refreshTokenCallback.Some? && IsFunction(refreshTokenCallback.value) &&
    !(scope.Some? && !IsString(scope.value))
  }

  const InvalidConfig: string := "Invalid OAuth2Config provided"

  /** `isOAuth2Config` demands strings although the configuration type
      allows numeric client ids and secrets; a `scope` key that is present
      but undefined is refused too. */
  lemma IsOAuth2ConfigStrict(v: Value, n: int)
    requires v.VObject?
    requires Field(v, "clientId") == Some(VInt(n)) || Field(v, "clientSecret") == Some(VInt(n)) ||
             Field(v, "scope") == Some(VUndefined)
    ensures !IsOAuth2Config(v)
  {
  }

  /** Adding or changing the `auth` field never changes the verdict. */
  lemma IsOAuth2ConfigIgnoresAuth(v: Value, x: Value)
    requires v.VObject?
    ensures IsOAuth2Config(SetField(v, "auth", x)) == IsOAuth2Config(v)
  {
    var w := SetField(v, "auth", x);
    SameFieldsSameVerdict(v, w);
  }

  lemma SameFieldsSameVerdict(v: Value, w: Value)
    requires v.VObject? && w.VObject?
    requires forall k | k != "auth" :: Field(w, k) == Field(v, k)
    ensures IsOAuth2Config(w) == IsOAuth2Config(v)
  {
    assert Field(w, "clientId") == Field(v, "clientId");
    assert Field(w, "clientSecret") == Field(v, "clientSecret");
    assert Field(w, "grantType") == Field(v, "grantType");
    assert Field(w, "accessTokenCallback") == Field(v, "accessTokenCallback");
    assert Field(w, "refreshTokenCallback") == Field(v, "refreshTokenCallback");
    assert Field(w, "scope") == Field(v, "scope");
    assert IsObject(w) && IsObject(v);
  }

  /** `tokenIsExpired`: no token (or the empty one), no positive expiry, or
      the expiry reached. */
  predicate TokenExpired(accessToken: Option<string>, expirationTimestamp: int, now: int) {
    !(accessToken.Some? && accessToken.value != "") || expirationTimestamp <= 0 || now >= expirationTimestamp
  }

  /** Once expired, a token stays expired as time goes on; a token with a
      positive expiry is fresh exactly before it. */
  lemma ExpiryMonotone(accessToken: Option<string>, expirationTimestamp: int, now: int, later: int)
    requires now <= later
    ensures TokenExpired(accessToken, expirationTimestamp, now) ==> TokenExpired(accessToken, expirationTimestamp, later)
    ensures accessToken.Some? && accessToken.value != "" && expirationTimestamp > 0 ==>
      (!TokenExpired(accessToken, expirationTimestamp, now) <==> now < expirationTimestamp)
  {
  }

  /** Which configuration callback a token request calls. */
  datatype Callback = AccessTokenCallback | RefreshTokenCallback

  /** The promise of one callback call. */
  class TokenRequest {
    const callback: Callback

    constructor(callback: Callback)
      ensures this.callback == callback
    {
      this.callback := callback;
    }
  }

  /** `OAuth2TokenRecord`, the value a callback resolves to. */
  datatype TokenRecord = TokenRecord(accessToken: string, refreshToken: Option<string>, expirationTimestamp: Option<int>)

  /** `resp?.expirationTimestamp || 0`. */
  function StoredExpiry(resp: TokenRecord): (e: int)
    ensures resp.expirationTimestamp.None? ==> e == 0
    ensures resp.expirationTimestamp.Some? ==> e == resp.expirationTimestamp.value
  {
    match resp.expirationTimestamp
    case None => 0
    case Some(t) => if Truthy(VInt(t)) then t else 0
  }

  /** The callback `getAccessToken` picks: the refresh callback exactly
      when a (non-empty) refresh token is held. */
  function CallbackFor(refreshToken: Option<string>): (c: Callback)
    ensures c == RefreshTokenCallback <==> refreshToken.Some? && refreshToken.value != ""
  {
    if Truthy(match refreshToken case Some(s) => VString(s) case None => VUndefined)
    then RefreshTokenCallback else AccessTokenCallback
  }

  /** How a token request's promise settles: the callback's record, or the
      reason it rejects with. */
  datatype TokenOutcome = Resolved(resp: TokenRecord) | Rejected(reason: string)

  /** A request `(req, next)` reaches `next` with `req`, suspends on a
      token, or rejects without reaching `next`. */
  datatype AuthStep =
    | Forward(req: Value)
    | AwaitToken(pending: TokenRequest, req: Value)
    | Reject(reason: string)

  /** The request's headers are a plain object or absent, as its type demands. */
  predicate HeadersSlot(req: Value) {
    req.VObject? && (IsNil(FieldOrUndefined(req, "headers")) || FieldOrUndefined(req, "headers").VObject?)
  }

  /** `req.headers ??= {}; req.headers["authorization"] = `Bearer ${token}``. */
  function WithAuthorization(req: Value, token: Option<string>): (r: Value)
    requires HeadersSlot(req)
    ensures HeadersSlot(r) && FieldOrUndefined(r, "headers").VObject?
    ensures Field(FieldOrUndefined(r, "headers"), "authorization") ==
      Some(VString("Bearer " + match token case Some(t) => t case None => "undefined"))
    ensures forall k | k != "authorization" ::
      Field(FieldOrUndefined(r, "headers"), k) == Field(FieldOrUndefined(req, "headers"), k)
    ensures forall k | k != "headers" :: Field(r, k) == Field(req, k)
  {
    var headers := if IsNil(FieldOrUndefined(req, "headers")) then VObject([]) else FieldOrUndefined(req, "headers");
    var value := VString("Bearer " + Interpolate(match token case Some(t) => VString(t) case None => VUndefined));
    SetField(req, "headers", SetField(headers, "authorization", value))
  }

  /** An instance of the adapter. */
  class OAuth2 {
    const config: Value
    var accessToken: Option<string>
    var refreshToken: Option<string>
    var expirationTimestamp: int
    var authorizing: bool
    var activeTokenRequest: TokenRequest?

    /** `authorizing` is set exactly while a token request is active. */
    ghost predicate Valid()
      reads this
    {
      authorizing <==> activeTokenRequest != null
    }

    constructor(config: Value)
      requires IsOAuth2Config(config)
      ensures Valid() && this.config == config
      ensures accessToken.None? && refreshToken.None? && expirationTimestamp == 0
      ensures !authorizing && activeTokenRequest == null
    {
      this.config := config;
      accessToken := None;
      refreshToken := None;
      expirationTimestamp := 0;
      authorizing := false;
      activeTokenRequest := null;
    }

    /** `tokenIsExpired` with `Date.now()` given as `now`. */
    predicate TokenIsExpired(now: int)
      reads this
    {
      TokenExpired(accessToken, expirationTimestamp, now)
    }

    /** `getAccessToken`, up to the point where the callback's promise is
        pending: while a request is active it is returned and nothing
        starts; otherwise the chosen callback is called and its request
        becomes the active one. `started` tells the two apart. */
    method GetAccessToken() returns (request: TokenRequest, started: bool)
      requires Valid()
      modifies this
      ensures Valid() && authorizing && activeTokenRequest == request
      ensures started <==> old(activeTokenRequest) == null
      ensures !started ==> request == old(activeTokenRequest)
      ensures started ==> fresh(request) && request.callback == CallbackFor(refreshToken)
      ensures accessToken == old(accessToken) && refreshToken == old(refreshToken)
      ensures expirationTimestamp == old(expirationTimestamp)
    {
      if activeTokenRequest == null {
        authorizing := true;
        var accessOrRefresh := CallbackFor(refreshToken);
        activeTokenRequest := new TokenRequest(accessOrRefresh);
        started := true;
      } else {
        started := false;
      }
      request := activeTokenRequest;
    }

    /** The active request resolves with `resp`: all three token fields are
        overwritten, then the `finally` clears the request. */
    method Succeed(resp: TokenRecord)
      requires Valid() && activeTokenRequest != null
      modifies this
      ensures Valid() && !authorizing && activeTokenRequest == null
      ensures accessToken == Some(resp.accessToken)
      ensures refreshToken == resp.refreshToken
      ensures expirationTimestamp == StoredExpiry(resp)
    {
      accessToken := Some(resp.accessToken);
      refreshToken := resp.refreshToken;
      expirationTimestamp := StoredExpiry(resp);
      authorizing := false;
      activeTokenRequest := null;
    }

    /** The active request rejects: the token fields stay, the `finally`
        clears the request. */
    method Fail()
      requires Valid() && activeTokenRequest != null
      modifies this
      ensures Valid() && !authorizing && activeTokenRequest == null
      ensures accessToken == old(accessToken) && refreshToken == old(refreshToken)
      ensures expirationTimestamp == old(expirationTimestamp)
    {
      authorizing := false;
      activeTokenRequest := null;
    }

    /** The middleware of `getAuthentication`, up to its first `await`:
        while a token request is in flight the request is forwarded as it
        is; otherwise a missing or expired token starts (or joins) a token
        request and the middleware waits on it, and a valid token is
        written into the `authorization` header. */
    method Authenticate(req: Value, now: int) returns (step: AuthStep)
      requires Valid() && HeadersSlot(req)
      modifies this
      ensures Valid()
      ensures old(authorizing) ==> step == Forward(req) && activeTokenRequest == old(activeTokenRequest)
      ensures !old(authorizing) && !TokenExpired(old(accessToken), old(expirationTimestamp), now) ==>
        step == Forward(WithAuthorization(req, accessToken)) && activeTokenRequest == old(activeTokenRequest)
      ensures !old(authorizing) && TokenExpired(old(accessToken), old(expirationTimestamp), now) ==>
        step.AwaitToken? && step.req == req && step.pending == activeTokenRequest &&
        fresh(step.pending) && step.pending.callback == CallbackFor(refreshToken)
      ensures accessToken == old(accessToken) && refreshToken == old(refreshToken)
      ensures expirationTimestamp == old(expirationTimestamp)
    {
      if !authorizing {
        if !(accessToken.Some? && accessToken.value != "") || TokenIsExpired(now) {
          var request, _ := GetAccessToken();
          return AwaitToken(request, req);
        }
        return Forward(WithAuthorization(req, accessToken));
      }
      return Forward(req);
    }

    /** After the awaited token request resolved: the stored token is
        written into the `authorization` header and nothing else of the
        request changes. */
    function Resume(req: Value): (r: Value)
      requires HeadersSlot(req) && accessToken.Some?
      reads this
      ensures HeadersSlot(r)
      ensures Field(FieldOrUndefined(r, "headers"), "authorization") == Some(VString("Bearer " + accessToken.value))
      ensures forall k | k != "authorization" ::
        Field(FieldOrUndefined(r, "headers"), k) == Field(FieldOrUndefined(req, "headers"), k)
      ensures forall k | k != "headers" :: Field(r, k) == Field(req, k)
    {
      WithAuthorization(req, accessToken)
    }

    /** The `await` of the middleware returns: the token request it waits
        on settles. Resolved, the new token is stored and the request goes
        on to `next` with its header; rejected, the tokens stay, the
        middleware's promise rejects with the same reason and `next` is
        never called. Either way the adapter is idle again. */
    method Settle(step: AuthStep, outcome: TokenOutcome) returns (next: AuthStep)
      requires Valid() && step.AwaitToken? && step.pending == activeTokenRequest && HeadersSlot(step.req)
      modifies this
      ensures Valid() && !authorizing && activeTokenRequest == null
      ensures next.Forward? <==> outcome.Resolved?
      ensures outcome.Rejected? ==> next == Reject(outcome.reason)
      ensures outcome.Rejected? ==>
        accessToken == old(accessToken) && refreshToken == old(refreshToken) && expirationTimestamp == old(expirationTimestamp)
      ensures outcome.Resolved? ==> next == Forward(WithAuthorization(step.req, Some(outcome.resp.accessToken)))
      ensures outcome.Resolved? ==>
        accessToken == Some(outcome.resp.accessToken) && refreshToken == outcome.resp.refreshToken &&
        expirationTimestamp == StoredExpiry(outcome.resp)
    {
      match outcome
      case Resolved(resp) =>
        Succeed(resp);
        next := Forward(Resume(step.req));
      case Rejected(reason) =>
        Fail();
        next := Reject(reason);
    }
  }

  /** `new OAuth2(config)`: the error the constructor throws when the guard
      refuses the configuration, otherwise an idle adapter. */
  method NewOAuth2(config: Value) returns (r: Result<OAuth2>)
    ensures r.Err? <==> !IsOAuth2Config(config)
    ensures r.Err? ==> r.msg == InvalidConfig
    ensures r.Ok? ==> fresh(r.value) && r.value.Valid() && r.value.config == config
    ensures r.Ok? ==> r.value.accessToken.None? && r.value.refreshToken.None? && !r.value.authorizing
  {
    if !IsOAuth2Config(config) {
      return Err(InvalidConfig);
    }
    var adapter := new OAuth2(config);
    return Ok(adapter);
  }

  /** A token record without an expiry is stored as expired: the next
      request fetches again. */
  lemma NoExpiryMeansExpired(resp: TokenRecord, now: int)
    requires resp.expirationTimestamp.None? || resp.expirationTimestamp == Some(0)
    ensures TokenExpired(Some(resp.accessToken), StoredExpiry(resp), now)
  {
  }

  /** A second request arriving while a token request is in flight starts
      nothing and leaves the header alone; after the token arrives the
      next request carries it. */
  method SingleFlight(auth: OAuth2, req1: Value, req2: Value, req3: Value, resp: TokenRecord, now: int)
    returns (s1: AuthStep, s2: AuthStep, s3: AuthStep)
    requires auth.Valid() && !auth.authorizing && auth.accessToken.None? && auth.refreshToken.None?
    requires HeadersSlot(req1) && HeadersSlot(req2) && HeadersSlot(req3)
    requires 0 <= now && resp.accessToken != "" && resp.expirationTimestamp.Some? && resp.expirationTimestamp.value > now
    modifies auth
    ensures s1.AwaitToken? && s1.pending.callback == AccessTokenCallback
    ensures s2 == Forward(req2)
    ensures s3 == Forward(WithAuthorization(req3, Some(resp.accessToken)))
  {
    s1 := auth.Authenticate(req1, now);
    s2 := auth.Authenticate(req2, now);
    auth.Succeed(resp);
    s3 := auth.Authenticate(req3, now);
  }

  /** A token request that rejects makes the waiting request reject, with
      no header sent; the tokens stay missing, so the next request starts a
      new token request with the same callback. */
  method RejectedTokenRetries(auth: OAuth2, req1: Value, req2: Value, reason: string, now: int)
    returns (s1: AuthStep, r1: AuthStep, s2: AuthStep)
    requires auth.Valid() && !auth.authorizing && auth.accessToken.None? && auth.refreshToken.None?
    requires HeadersSlot(req1) && HeadersSlot(req2)
    modifies auth
    ensures s1.AwaitToken? && s1.pending.callback == AccessTokenCallback
    ensures r1 == Reject(reason)
    ensures s2.AwaitToken? && s2.pending != s1.pending && s2.pending.callback == AccessTokenCallback
    ensures auth.accessToken.None? && auth.authorizing
  {
    s1 := auth.Authenticate(req1, now);
    r1 := auth.Settle(s1, Rejected(reason));
    s2 := auth.Authenticate(req2, now);
  }
}
