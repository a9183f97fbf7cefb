/** The `REST` connector: seven verbs over the shared request cycle, bound
    onto the client by `initializeClient`. */
module Rest {
  import opened Wrappers
  import opened Records
  import opened JsValues
  import opened Json
  import opened Http
  import opened Config
  import opened Connectors
  import Middleware

  /** The verbs `initializeClient` binds, in binding order. */
  const RestMethods: seq<Method> := [HEAD, GET, POST, PATCH, PUT, DELETE, OPTIONS]

  /** The property names those verbs are bound under. */
  const RestNames: seq<string> := ["head", "get", "post", "patch", "put", "delete", "options"]

  /** post, patch, put and delete take a body; head, get and options do not. */
  predicate TakesBody(m: Method) {
    m in {POST, PATCH, PUT, DELETE}
  }

  /** The `request` call a verb makes: its own lower-case name, and an
      undefined body for the verbs without one. */
  function RestCall(m: Method, endpoint: string, body: Value, params: Value, headers: Option<Record<string, string>>): Call {
    Call(m.Name(), endpoint, if TakesBody(m) then body else VUndefined, params, headers)
  }

  /** `head`, `get`, `post`, `patch`, `put`, `delete` and `options`. */
  method Perform(conn: Connector, m: Method, endpoint: string, body: Value, params: Value,
                 headers: Option<Record<string, string>>, fetched: FetchResult) returns (result: Result<Response>, events: seq<string>)
    requires conn.Valid() && conn.middleware != null && m in RestMethods
    modifies conn
    ensures conn.Valid() && conn.middleware == old(conn.middleware)
    ensures Outcome(conn.State(), result, events) ==
      RequestSpec(conn.env, old(conn.State()), StackOf(conn.middleware), RestCall(m, endpoint, body, params, headers), fetched)
  {
    result, events := conn.SendRequest(RestCall(m, endpoint, body, params, headers), fetched);
  }

  /** `initializeClient(client)`: the seven verbs become properties of the
      client, bound to this connector, and the same client is returned. */
  method InitializeClient(conn: Connector, client: MethodTable) returns (r: MethodTable)
    modifies client
    ensures r == client
    ensures client.methods == Bind(old(client.methods), RestNames, conn)
  {
    client.methods := Bind(client.methods, RestNames, conn);
    return client;
  }

  /** The verbs and the property names agree. */
  lemma RestNamesAreVerbNames()
    ensures |RestNames| == |RestMethods| && forall i | 0 <= i < |RestMethods| :: RestNames[i] == RestMethods[i].Name()
    ensures "connect" !in RestNames && "trace" !in RestNames
  {
  }

  /** Without request maps, head, get and options send no body whatever
      body is passed, the method goes out upper-cased, and the request is
      built exactly when the URL is. */
  lemma BodylessVerbs(env: Env, s: ConnState, stack: Stack, m: Method, endpoint: string, body: Value,
                      params: Value, headers: Option<Record<string, string>>)
    requires IsConfig(env.config) && stack.requestMaps == [] && m in {HEAD, GET, OPTIONS}
    ensures var call := CallDefaults(RestCall(m, endpoint, body, params, headers));
      var (s1, err) := PreRequestSpec(env, s, stack, call);
      (err.None? <==> BuiltUrl(BaseOf(env, s.tempHostname), StripSlash(endpoint), call.params, env.Format(), env.resolve, env.isValidUrl).Ok?) &&
      (err.None? ==> s1.lastRequest.Some? && s1.lastRequest.value.body == NoBody && s1.lastRequest.value.methodName == AsciiUpper(m.Name()))
  {
    var call := CallDefaults(RestCall(m, endpoint, body, params, headers));
    assert call.body == VUndefined;
    var c := Components(VNull, call.params, MergeHeaders(s.headers, TempHeadersOf(call.headers), s.permanentHeaders));
    assert Middleware.RequestRollup(stack.requestMaps, c) == c;
    MethodNormalization(m);
    assert !ForbiddenMethod(m.Name()) && NormalizeMethod(m.Name()) == AsciiUpper(m.Name());
    assert BuildBody(c.body) == NoBody;
    PreRequestOutcome(env, s, stack, call);
    var u := BuiltUrl(BaseOf(env, s.tempHostname), StripSlash(endpoint), call.params, env.Format(), env.resolve, env.isValidUrl);
    if u.Ok? {
      assert Prepared(BaseOf(env, s.tempHostname), env.Format(), env.resolve, env.isValidUrl, m.Name(), StripSlash(endpoint), c) ==
        NewRequest(u.value, m.Name(), c.headers, NoBody);
    }
  }

  /** Without request maps, post, patch, put and delete send a JSON array
      or object as its JSON text, which parses back to the body; the
      request is built exactly when the URL is. */
  lemma BodyVerbsSendJson(env: Env, s: ConnState, stack: Stack, m: Method, endpoint: string, body: Value,
                          params: Value, headers: Option<Record<string, string>>)
    requires IsConfig(env.config) && stack.requestMaps == [] && TakesBody(m)
    requires IsJsonArray(body) || IsJsonObject(body)
    ensures var call := CallDefaults(RestCall(m, endpoint, body, params, headers));
      var (s1, err) := PreRequestSpec(env, s, stack, call);
      (err.None? <==> BuiltUrl(BaseOf(env, s.tempHostname), StripSlash(endpoint), call.params, env.Format(), env.resolve, env.isValidUrl).Ok?) &&
      (err.None? ==> s1.lastRequest.Some? && s1.lastRequest.value.body.TextBody? &&
                     Parse(s1.lastRequest.value.body.text) == Some(Prune(body)) &&
                     s1.lastRequest.value.methodName == NormalizeMethod(m.Name()))
  {
    var call := CallDefaults(RestCall(m, endpoint, body, params, headers));
    assert call.body == body && !IsNil(body);
    var c := Components(body, call.params, MergeHeaders(s.headers, TempHeadersOf(call.headers), s.permanentHeaders));
    assert Middleware.RequestRollup(stack.requestMaps, c) == c;
    BuildBodyJson(body);
    var b := BuildBody(body);
    assert b.TextBody? && Parse(b.text) == Some(Prune(body));
    MethodNormalization(m);
    BodylessMethod(m);
    assert !ForbiddenMethod(m.Name()) && NormalizeMethod(m.Name()) !in {"GET", "HEAD"};
    PreRequestOutcome(env, s, stack, call);
    var u := BuiltUrl(BaseOf(env, s.tempHostname), StripSlash(endpoint), call.params, env.Format(), env.resolve, env.isValidUrl);
    if u.Ok? {
      assert Prepared(BaseOf(env, s.tempHostname), env.Format(), env.resolve, env.isValidUrl, m.Name(), StripSlash(endpoint), c) ==
        NewRequest(u.value, m.Name(), c.headers, b);
    }
  }

  /** A request map that gives a get or head request a body makes the
      request fail to build, once the URL is built. */
  lemma MappedBodyOnGetFails(env: Env, s: ConnState, stack: Stack, m: Method, endpoint: string, body: Value,
                             params: Value, headers: Option<Record<string, string>>)
    requires IsConfig(env.config) && m in {HEAD, GET}
    requires var call := CallDefaults(RestCall(m, endpoint, body, params, headers));
      var c := Middleware.RequestRollup(stack.requestMaps,
        Components(VNull, call.params, MergeHeaders(s.headers, TempHeadersOf(call.headers), s.permanentHeaders)));
      !IsNil(c.body) && BuiltUrl(BaseOf(env, s.tempHostname), StripSlash(endpoint), c.params, env.Format(), env.resolve, env.isValidUrl).Ok?
    ensures PreRequestSpec(env, s, stack, CallDefaults(RestCall(m, endpoint, body, params, headers))).1 ==
      Some("TypeError: Request with GET/HEAD method cannot have body.")
  {
    var call := CallDefaults(RestCall(m, endpoint, body, params, headers));
    assert call.body == VUndefined && call.methodName == m.Name();
    MethodNormalization(m);
    BodylessMethod(m);
    BodyOnGetOrHeadFails(env, s, stack, call);
  }

  /** Any call whose method normalises to GET or HEAD fails once its mapped
      body is neither null nor undefined and its URL is built. */
  lemma BodyOnGetOrHeadFails(env: Env, s: ConnState, stack: Stack, call: Call)
    requires IsConfig(env.config)
    requires !ForbiddenMethod(call.methodName) && NormalizeMethod(call.methodName) in {"GET", "HEAD"}
    requires var body := if IsNil(call.body) then VNull else call.body;
      var c := Middleware.RequestRollup(stack.requestMaps,
        Components(body, call.params, MergeHeaders(s.headers, TempHeadersOf(call.headers), s.permanentHeaders)));
      !IsNil(c.body) && BuiltUrl(BaseOf(env, s.tempHostname), StripSlash(call.endpoint), c.params, env.Format(), env.resolve, env.isValidUrl).Ok?
    ensures PreRequestSpec(env, s, stack, call).1 == Some("TypeError: Request with GET/HEAD method cannot have body.")
  {
    var body := if IsNil(call.body) then VNull else call.body;
    var c := Middleware.RequestRollup(stack.requestMaps,
      Components(body, call.params, MergeHeaders(s.headers, TempHeadersOf(call.headers), s.permanentHeaders)));
    assert BuildBody(c.body) != NoBody;
    PreRequestOutcome(env, s, stack, call);
  }
}
