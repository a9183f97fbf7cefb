/** The auth adapters of the first API generation: their configuration
    guards, the request maps they install (the `Basic` scheme of section 2
    of RFC 7617 and the header form of section 2.1 of RFC 6750) and the
    ordered dispatch of `createAuthAdapter`. The no-auth, basic and bearer
    adapters never change after construction, so they are values here;
    the OAuth2 adapter is the object of module `OAuth`. */
module Auth {
  import opened Wrappers
  import opened Records
  import opened JsValues
  import opened Http
  import opened Config
  import opened Base64
  import opened OAuth
  import Middleware

  /** `isNoAuthConfig`: an object whose auth is "none". */
  predicate IsNoAuthConfig(v: Value) {
    IsObject(v) && Has(v, "auth", x => x == VString("none"))
  }

  /** `isBasicAuthConfig`: a full client configuration with auth "basic"
      and string userId and userPass. */
  predicate IsBasicAuthConfig(v: Value) {
    IsConfig(v) && Has(v, "auth", x => x == VString("basic")) && Has(v, "userId", IsString) && Has(v, "userPass", IsString)
  }

  /** `isBearerAuthConfig`: an object with auth "bearer" and a string token;
      unlike the basic guard it does not ask for a full configuration. */
  predicate IsBearerAuthConfig(v: Value) {
    IsObject(v) && Has(v, "auth", x => x == VString("bearer")) && Has(v, "token", IsString)
  }

  /** The three guards that read `auth` exclude one another; any other
      auth value, or none, passes none of them. */
  lemma AuthGuardsExclusive(v: Value)
    ensures !(IsNoAuthConfig(v) && IsBasicAuthConfig(v))
    ensures !(IsNoAuthConfig(v) && IsBearerAuthConfig(v))
    ensures !(IsBasicAuthConfig(v) && IsBearerAuthConfig(v))
    ensures Field(v, "auth") !in {Some(VString("none")), Some(VString("basic")), Some(VString("bearer"))} ==>
      !IsNoAuthConfig(v) && !IsBasicAuthConfig(v) && !IsBearerAuthConfig(v)
  {
  }

  /** The bearer guard accepts a bare `{auth, token}` object; the basic
      guard refuses the same shape because it is not a full configuration. */
  lemma GuardAsymmetry(t: string, id: string, pass: string)
    ensures IsBearerAuthConfig(VObject([("auth", VString("bearer")), ("token", VString(t))]))
    ensures !IsBasicAuthConfig(VObject([("auth", VString("basic")), ("userId", VString(id)), ("userPass", VString(pass))]))
  {
    var t0 := VObject([("auth", VString("bearer")), ("token", VString(t))]);
    assert Get(t0.fields, "token") == Get(t0.fields[1..], "token");
    var b := VObject([("auth", VString("basic")), ("userId", VString(id)), ("userPass", VString(pass))]);
    assert Get(b.fields, "connector") == None;
  }

  // ---------------------------------------------------------------------
  // The adapters.

  /** An adapter as `createAuthAdapter` builds it. */
  datatype AuthAdapter =
    | NoAuth
    | BasicAuth(encodedCredentials: string)
    | BearerAuth(token: string)
    | OAuth2Auth(oauth: OAuth2)

  /** Which adapter `createAuthAdapter` picks: the first guard that accepts,
      in the order none, basic, bearer, OAuth2. */
  datatype AuthKind = NoAuthKind | BasicKind | BearerKind | OAuth2Kind

  function AdapterKind(config: Value): Option<AuthKind> {
    if IsNoAuthConfig(config) then Some(NoAuthKind)
    else if IsBasicAuthConfig(config) then Some(BasicKind)
    else if IsBearerAuthConfig(config) then Some(BearerKind)
    else if IsOAuth2Config(config) then Some(OAuth2Kind)
    else None
  }

  /** Every kind is chosen exactly when its guard accepts: the first three
      exclude one another, so the order matters only for OAuth2, which is
      chosen only when none of the others accepts. */
  lemma AdapterKindSpec(config: Value)
    ensures AdapterKind(config) == Some(NoAuthKind) <==> IsNoAuthConfig(config)
    ensures AdapterKind(config) == Some(BasicKind) <==> IsBasicAuthConfig(config)
    ensures AdapterKind(config) == Some(BearerKind) <==> IsBearerAuthConfig(config)
    ensures AdapterKind(config) == Some(OAuth2Kind) <==>
      IsOAuth2Config(config) && !IsNoAuthConfig(config) && !IsBasicAuthConfig(config) && !IsBearerAuthConfig(config)
    ensures AdapterKind(config).None? <==>
      !IsNoAuthConfig(config) && !IsBasicAuthConfig(config) && !IsBearerAuthConfig(config) && !IsOAuth2Config(config)
  {
    AuthGuardsExclusive(config);
  }

  /** The OAuth2 guard does not read `auth`: a configuration whose auth is
      "basic" but lacks userPass, and that carries the OAuth2 fields, gets
      an OAuth2 adapter; without the OAuth2 fields it gets none. */
  lemma BasicWithoutPassword(config: Value)
    requires config.VObject? && Field(config, "auth") == Some(VString("basic")) && Field(config, "userPass") == None
    ensures IsOAuth2Config(config) ==> AdapterKind(config) == Some(OAuth2Kind)
    ensures !IsOAuth2Config(config) ==> AdapterKind(config).None?
  {
  }

  /** The basic credentials `btoa(`${userId}:${userPass}`)`; `btoa` throws
      on a character above U+00FF. */
  function BasicCredentials(config: Value): (r: Option<string>)
    requires IsBasicAuthConfig(config)
    ensures r.None? <==> exists i | 0 <= i < |UserPass(config)| :: UserPass(config)[i] as int >= 256
  {
    Btoa(UserPass(config))
  }

  /** `userId + ":" + userPass` of a basic configuration. */
  function UserPass(config: Value): string
    requires IsBasicAuthConfig(config)
  {
    Field(config, "userId").value.s + ":" + Field(config, "userPass").value.s
  }

  /** What `btoa` throws on a character above U+00FF. */
  const Latin1Error: string := "InvalidCharacterError: characters outside of the Latin1 range"

  /** `createAuthAdapter`: the adapter of the first accepting guard, none
      when no guard accepts, or the error the basic constructor throws. */
  method CreateAuthAdapter(config: Value) returns (r: Result<Option<AuthAdapter>>)
    ensures r.Err? <==> AdapterKind(config) == Some(BasicKind) && BasicCredentials(config).None?
    ensures r.Err? ==> r.msg == Latin1Error
    ensures r.Ok? ==> (r.value.None? <==> AdapterKind(config).None?)
    ensures r.Ok? && r.value.Some? ==> match r.value.value
      case NoAuth => AdapterKind(config) == Some(NoAuthKind)
      case BasicAuth(enc) => AdapterKind(config) == Some(BasicKind) && BasicCredentials(config) == Some(enc)
      case BearerAuth(t) => AdapterKind(config) == Some(BearerKind) && Field(config, "token") == Some(VString(t))
      case OAuth2Auth(o) =>
        (AdapterKind(config) == Some(OAuth2Kind) && fresh(o) && o.Valid() && o.config == config &&
         o.accessToken.None? && o.refreshToken.None? && o.expirationTimestamp == 0 && !o.authorizing)
  {
    if IsNoAuthConfig(config) {
      return Ok(Some(NoAuth));
    }
    if IsBasicAuthConfig(config) {
      match BasicCredentials(config)
      case None => return Err(Latin1Error);
      case Some(enc) => return Ok(Some(BasicAuth(enc)));
    }
    if IsBearerAuthConfig(config) {
      return Ok(Some(BearerAuth(Field(config, "token").value.s)));
    }
    if IsOAuth2Config(config) {
      var o := new OAuth2(config);
      return Ok(Some(OAuth2Auth(o)));
    }
    return Ok(None);
  }

  // ---------------------------------------------------------------------
  // The request maps.

  /** `components.headers["Authorization"] = value` on what `next()` returned. */
  function WithAuthorizationHeader(c: Components, value: string): (r: Components)
    ensures Get(r.headers, "Authorization") == Some(value)
    ensures forall j | j != "Authorization" :: Get(r.headers, j) == Get(c.headers, j)
    ensures r.body == c.body && r.params == c.params
  {
    forall j ensures Get(Set(c.headers, "Authorization", value), j) == if j == "Authorization" then Some(value) else Get(c.headers, j) {
      GetSet(c.headers, "Authorization", value, j);
    }
    c.(headers := Set(c.headers, "Authorization", value))
  }

  /** The request map `getAuthentication` returns, as a function of what
      `next()` resolves to: the basic and bearer maps write the header
      after awaiting `next()`, the no-auth map returns it unchanged. */
  function AuthMap(a: AuthAdapter): Components -> Components
    requires !a.OAuth2Auth?
  {
    match a
    case NoAuth => c => c
    case BasicAuth(enc) => c => WithAuthorizationHeader(c, "Basic " + enc)
    case BearerAuth(t) => c => WithAuthorizationHeader(c, "Bearer " + t)
  }

  /** `getAuthentication()` of the no-auth, basic and bearer adapters: a new
      request map. (The OAuth2 adapter's is `OAuth2.Authenticate`.) */
  method GetAuthentication(a: AuthAdapter) returns (m: Middleware.RequestMapFn)
    requires !a.OAuth2Auth?
    ensures fresh(m) && m.f == AuthMap(a)
  {
    m := new Middleware.RequestMapFn(AuthMap(a));
  }

  /** The no-auth map hands back exactly what `next()` returned. */
  lemma NoAuthPassesThrough(c: Components)
    ensures AuthMap(NoAuth)(c) == c
  {
  }

  /** The bearer map writes "Bearer " + token and leaves everything else. */
  lemma BearerHeader(config: Value, c: Components)
    requires IsBearerAuthConfig(config)
    ensures var r := AuthMap(BearerAuth(Field(config, "token").value.s))(c);
      Get(r.headers, "Authorization") == Some("Bearer " + Field(config, "token").value.s) &&
      (forall j | j != "Authorization" :: Get(r.headers, j) == Get(c.headers, j)) &&
      r.body == c.body && r.params == c.params
  {
  }

  /** The basic map writes "Basic " + the base64 of the credentials `s`
      (`userId:userPass`, see `UserPass`): four characters per started
      group of three, which decode back to `s`. */
  lemma BasicHeader(s: string, c: Components)
    requires Btoa(s).Some?
    ensures var enc := Btoa(s).value;
      var r := AuthMap(BasicAuth(enc))(c);
      Get(r.headers, "Authorization") == Some("Basic " + enc) &&
      (forall j | j != "Authorization" :: Get(r.headers, j) == Get(c.headers, j)) &&
      |enc| == 4 * ((|s| + 2) / 3) &&
      Decode(enc).Some? && FromLatin1(Decode(enc).value) == s
  {
    AtobBtoa(s);
    BtoaLength(s);
  }

  /** A server that splits the decoded credentials at the first colon gets
      the user id and password back, when the user id has no colon
      (section 2 of RFC 7617 forbids one there). */
  lemma BasicCredentialsSplit(config: Value)
    requires IsBasicAuthConfig(config) && BasicCredentials(config).Some?
    requires ':' !in Field(config, "userId").value.s
    ensures var enc := BasicCredentials(config).value;
      Decode(enc).Some? &&
      SplitCredentials(FromLatin1(Decode(enc).value)) == (Field(config, "userId").value.s, Field(config, "userPass").value.s)
  {
    var s := UserPass(config);
    assert BasicCredentials(config).value == Btoa(s).value;
    AtobBtoa(s);
    SplitAtFirstColon(Field(config, "userId").value.s, Field(config, "userPass").value.s);
  }

  /** Position of the first ':'. */
  function FirstColon(s: string): (r: Option<nat>)
    ensures r.Some? ==> r.value < |s| && s[r.value] == ':' && ':' !in s[..r.value]
    ensures r.None? ==> ':' !in s
    decreases |s|
  {
    if s == [] then None
    else if s[0] == ':' then Some(0)
    else match FirstColon(s[1..])
      case None => None
      case Some(p) =>
        assert s[..p + 1] == [s[0]] + s[1..][..p];
        Some(p + 1)
  }

  /** A decoded `user-pass` split at its first colon, as a server reads it. */
  function SplitCredentials(s: string): (string, string) {
    match FirstColon(s)
    case None => (s, "")
    case Some(p) => (s[..p], s[p + 1..])
  }

  lemma {:induction false} FirstColonAfter(id: string, pass: string)
    requires ':' !in id
    ensures FirstColon(id + ":" + pass) == Some(|id|)
    decreases |id|
  {
    if id != [] {
      assert (id + ":" + pass)[1..] == id[1..] + ":" + pass;
      FirstColonAfter(id[1..], pass);
    }
  }

  lemma SplitAtFirstColon(id: string, pass: string)
    requires ':' !in id
    ensures SplitCredentials(id + ":" + pass) == (id, pass)
  {
    FirstColonAfter(id, pass);
    var s := id + ":" + pass;
    assert s[..|id|] == id;
    assert s[|id| + 1..] == pass;
  }
}
