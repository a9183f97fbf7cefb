/** `ConnectorBase`, the part of a connector shared by REST and GraphQL:
    the three header tiers, search-parameter formatting, URL and body
    building, and the request cycle `preRequest` → fetch → `postRequest` →
    request taps, with `refire`. URL resolution (`new URL(endpoint, base)`)
    and the `isValidUrl` test are parameters; the network's answer is an
    argument of the request. */
module Connectors {
  import opened Wrappers
  import opened Text
  import opened Records
  import opened JsValues
  import opened Json
  import opened Http
  import opened Url
  import opened Config
  import Middleware

  // ---------------------------------------------------------------------
  // Headers.

  /** `{...headers, ...tempHeaders, ...permanentHeaders}`. */
  function MergeHeaders(persistent: Record<string, string>, temp: Record<string, string>, permanent: Record<string, string>): Record<string, string> {
    Assign(Assign(Assign([], persistent), temp), permanent)
  }

  /** On a name clash the temporary header beats the persistent one and the
      permanent header beats both; the merge has distinct names. */
  lemma HeaderPrecedence(persistent: Record<string, string>, temp: Record<string, string>, permanent: Record<string, string>, k: string)
    requires UniqueKeys(persistent) && UniqueKeys(temp) && UniqueKeys(permanent)
    ensures Get(MergeHeaders(persistent, temp, permanent), k) ==
      if k in Keys(permanent) then Get(permanent, k)
      else if k in Keys(temp) then Get(temp, k)
      else Get(persistent, k)
    ensures UniqueKeys(MergeHeaders(persistent, temp, permanent))
  {
    var a := Assign([], persistent);
    var b := Assign(a, temp);
    GetAssign(b, permanent, k);
    GetAssign(a, temp, k);
    GetAssign([], persistent, k);
    AssignUniqueKeys([], persistent);
    AssignUniqueKeys(a, temp);
    AssignUniqueKeys(b, permanent);
  }

  /** The temporary headers `preRequest` stores: the entries of
      `new Headers(headers)` when headers are given, else none. */
  function TempHeadersOf(headers: Option<Record<string, string>>): (r: Record<string, string>)
    ensures UniqueKeys(r)
    ensures headers.Some? ==>
      forall n :: Get(r, n) == if ValuesNamed(headers.value, n) == [] then None else Some(Join(ValuesNamed(headers.value, n), ", "))
    ensures headers.None? ==> r == []
  {
    match headers
    case None => []
    case Some(h) =>
      NormalizeHeadersNames(h);
      forall n ensures Get(NormalizeHeaders(h), n) ==
        if ValuesNamed(h, n) == [] then None else Some(Join(ValuesNamed(h, n), ", ")) {
        NormalizeHeadersGet(h, n);
      }
      NormalizeHeaders(h)
  }

  // ---------------------------------------------------------------------
  // Endpoint, search parameters, URL and body.

  /** `if (endpoint.charAt(0) === "/") endpoint = endpoint.substring(1)`. */
  function StripSlash(endpoint: string): (r: string)
    ensures |endpoint| > 0 && endpoint[0] == '/' ==> endpoint == "/" + r
    ensures !(|endpoint| > 0 && endpoint[0] == '/') ==> r == endpoint
  {
    if |endpoint| > 0 && endpoint[0] == '/' then endpoint[1..] else endpoint
  }

  /** Exactly one slash goes: "//a" keeps one. */
  lemma StripSlashOnce(rest: string)
    ensures StripSlash("/" + rest) == rest
    ensures StripSlash("//" + rest) == "/" + rest
  {
    assert ("//" + rest)[1..] == "/" + rest;
  }

  /** What `formatSearchParam(key, value, url)` appends for the configured
      format: one `(key, value.toString())` pair for "delimited", the PHP
      form for "php", nothing for any other format. */
  function FormatAppended(format: Value, key: string, value: Value): Appended
    requires Stringable(value)
  {
    if format == VString("delimited") then Appended([(key, ToString(value))], None)
    else if format == VString("php") then PhpAppended(key, value)
    else Appended([], None)
  }

  /** The error `buildUrl` throws for a null or undefined parameter value. */
  function ValueTypeError(v: Value): string {
    "Invalid URL Search Param value type. Found: \"" + TypeOf(v) + "\""
  }

  /** One entry of the loop in `buildUrl`. (Keys are strings and always
      pass the key check.) */
  function BuildUrlEntry(format: Value): (string, Value) -> Appended {
    (k: string, v: Value) => if IsNil(v) then Appended([], Some(ValueTypeError(v))) else FormatAppended(format, k, v)
  }

  /** `if (params) Object.entries(params)`. */
  function ParamEntries(params: Value): Record<string, Value> {
    if Truthy(params) then OwnEntries(params) else []
  }

  /** `buildUrl(endpoint, params)` against `base`: the resolved URL, unless
      it cannot be resolved or fails `isValidUrl`, with the parameters
      appended in entry order; the first entry that throws decides the error. */
  function BuiltUrl(base: string, endpoint: string, params: Value, format: Value,
                    resolve: (string, string) -> Option<Location>, isValidUrl: string -> bool): Result<Location>
  {
    match resolve(endpoint, base)
    case None => Err("TypeError: Invalid URL")
    case Some(l) =>
      if !isValidUrl(Href(l)) then Err("Invalid URL: " + Href(l))
      else
        var a := AppendAll(ParamEntries(params), BuildUrlEntry(format));
        if a.error.Some? then Err(a.error.value) else Ok(l.(query := l.query + a.pairs))
  }

  /** With the "delimited" format and no null or undefined value, every
      entry becomes one pair, in order, after the resolved URL's own pairs;
      a null or undefined value anywhere makes the build fail instead. */
  lemma BuiltUrlDelimited(base: string, endpoint: string, params: Value,
                          resolve: (string, string) -> Option<Location>, isValidUrl: string -> bool)
    requires resolve(endpoint, base).Some? && isValidUrl(Href(resolve(endpoint, base).value))
    ensures var es := ParamEntries(params);
      var r := BuiltUrl(base, endpoint, params, VString("delimited"), resolve, isValidUrl);
      (r.Ok? <==> forall i | 0 <= i < |es| :: !IsNil(es[i].1)) &&
      (r.Ok? ==> r.value.query == resolve(endpoint, base).value.query + seq(|es|, i requires 0 <= i < |es| && !IsNil(es[i].1) => (es[i].0, ToString(es[i].1))))
  {
    var es := ParamEntries(params);
    var step := BuildUrlEntry(VString("delimited"));
    AppendAllError(es, step);
    if forall i | 0 <= i < |es| :: !IsNil(es[i].1) {
      DelimitedAll(es, step);
    } else {
      var i :| 0 <= i < |es| && IsNil(es[i].1);
      assert step(es[i].0, es[i].1).error.Some?;
    }
  }

  lemma {:induction false} DelimitedAll(es: Record<string, Value>, step: (string, Value) -> Appended)
    requires step == BuildUrlEntry(VString("delimited"))
    requires forall i | 0 <= i < |es| :: !IsNil(es[i].1)
    ensures AppendAll(es, step) == Appended(seq(|es|, i requires 0 <= i < |es| && !IsNil(es[i].1) => (es[i].0, ToString(es[i].1))), None)
    decreases |es|
  {
    if es != [] {
      var init := es[..|es| - 1];
      DelimitedAll(init, step);
    }
  }

  /** With a format other than "delimited" and "php" nothing is appended,
      but a null or undefined value still throws. */
  lemma BuiltUrlUnknownFormat(base: string, endpoint: string, params: Value, format: Value,
                              resolve: (string, string) -> Option<Location>, isValidUrl: string -> bool)
    requires format != VString("delimited") && format != VString("php")
    requires resolve(endpoint, base).Some? && isValidUrl(Href(resolve(endpoint, base).value))
    ensures var r := BuiltUrl(base, endpoint, params, format, resolve, isValidUrl);
      r.Ok? ==> r.value == resolve(endpoint, base).value
  {
    UnknownFormatAppendsNothing(ParamEntries(params), format);
  }

  lemma {:induction false} UnknownFormatAppendsNothing(es: Record<string, Value>, format: Value)
    requires format != VString("delimited") && format != VString("php")
    ensures AppendAll(es, BuildUrlEntry(format)).pairs == []
    decreases |es|
  {
    if es != [] {
      UnknownFormatAppendsNothing(es[..|es| - 1], format);
    }
  }

  /** An unresolvable or invalid URL fails before any parameter is looked at. */
  lemma BuiltUrlInvalid(base: string, endpoint: string, params: Value, format: Value,
                        resolve: (string, string) -> Option<Location>, isValidUrl: string -> bool)
    requires resolve(endpoint, base).Some? && !isValidUrl(Href(resolve(endpoint, base).value))
    ensures BuiltUrl(base, endpoint, params, format, resolve, isValidUrl) ==
      Err("Invalid URL: " + Href(resolve(endpoint, base).value))
  {
  }

  /** `buildBody(body)`: the JSON text of a JSON array or object, no body
      for null and undefined, the body itself otherwise. */
  function BuildBody(body: Value): Body {
    if IsJsonArray(body) || IsJsonObject(body) then TextBody(Stringify(body))
    else if IsNil(body) then NoBody
    else if body.VString? then TextBody(body.s)
    else OtherBody(body)
  }

  /** The JSON text parses back to the body (without its undefined
      properties); null and undefined both give no body. */
  lemma BuildBodyJson(body: Value)
    ensures IsJsonArray(body) || IsJsonObject(body) ==>
      BuildBody(body).TextBody? && Parse(BuildBody(body).text) == Some(Prune(body))
    ensures IsJsonData(body) && (body.VArray? || body.VObject?) ==>
      BuildBody(body).TextBody? && Parse(BuildBody(body).text) == Some(body)
    ensures BuildBody(VUndefined) == BuildBody(VNull) == NoBody
  {
    if IsJsonData(body) {
      DataIsJson(body);
    }
    if IsJsonArray(body) || IsJsonObject(body) {
      StringifyRoundTrip(body);
    }
  }

  /** A `Request`'s body handed back to `buildBody` (as `refire` does). */
  function BodyValue(b: Body): Value {
    match b
    case NoBody => VNull
    case TextBody(t) => VString(t)
    case OtherBody(v) => v
  }

  /** A built body survives being built again. */
  lemma BuildBodyStable(body: Value)
    ensures BuildBody(BodyValue(BuildBody(body))) == BuildBody(body)
  {
  }

  /** The request `preRequest` builds from the mapped components. */
  function Prepared(base: string, format: Value, resolve: (string, string) -> Option<Location>, isValidUrl: string -> bool,
                    methodName: string, endpoint: string, c: Components): Result<Request>
  {
    match BuiltUrl(base, endpoint, c.params, format, resolve, isValidUrl)
    case Err(e) => Err(e)
    case Ok(l) => NewRequest(l, methodName, c.headers, BuildBody(c.body))
  }

  // ---------------------------------------------------------------------
  // The request cycle on state values.

  /** What a connector is built from and never changes. */
  datatype Env = Env(config: Value, resolve: (string, string) -> Option<Location>, isValidUrl: string -> bool)
  {
    /** `config.hostname`. */
    function Hostname(): string
      requires IsConfig(config)
    {
      Field(config, "hostname").value.s
    }

    /** `config.searchParamFormat`. */
    function Format(): Value {
      FieldOrUndefined(config, "searchParamFormat")
    }
  }

  /** The fields of a connector the request cycle updates. */
  datatype ConnState = ConnState(
    headers: Record<string, string>,
    tempHeaders: Record<string, string>,
    permanentHeaders: Record<string, string>,
    tempHostname: Option<string>,
    lastRequest: Option<Request>,
    lastResponse: Option<Response>)

  /** The four sets of the middleware stack. */
  datatype Stack = Stack(
    requestTaps: seq<Middleware.RequestTapFn>,
    responseTaps: seq<Middleware.ResponseTapFn>,
    requestMaps: seq<Middleware.RequestMapFn>,
    responseMaps: seq<Middleware.ResponseMapFn>)

  /** The arguments of `request(method, endpoint, body, params, headers)`. */
  datatype Call = Call(methodName: string, endpoint: string, body: Value, params: Value, headers: Option<Record<string, string>>)

  /** How the fetch settled. */
  datatype FetchResult = Fetched(response: Response) | FetchFailed(message: string)

  /** The end of a `request`: the new state, the result and the tap log. */
  datatype Outcome = Outcome(state: ConnState, result: Result<Response>, events: seq<string>)

  /** `tempHostname ?? config.hostname`. */
  function BaseOf(env: Env, tempHostname: Option<string>): string
    requires IsConfig(env.config)
  {
    match tempHostname
    case Some(h) => h
    case None => env.Hostname()
  }

  /** `preRequest`: the temporary headers are replaced first; then the
      request maps run over `{body ?? null, params, headers}` with the
      merged headers, and the request built from their output is stored.
      A failure leaves the stored request as it was. */
  function PreRequestSpec(env: Env, s: ConnState, stack: Stack, call: Call): (ConnState, Option<string>)
    requires IsConfig(env.config)
  {
    var temp := TempHeadersOf(call.headers);
    var body := if IsNil(call.body) then VNull else call.body;
    var c := Middleware.RequestRollup(stack.requestMaps, Components(body, call.params, MergeHeaders(s.headers, temp, s.permanentHeaders)));
    var p := Prepared(BaseOf(env, s.tempHostname), env.Format(), env.resolve, env.isValidUrl, call.methodName, StripSlash(call.endpoint), c);
    var s1 := s.(tempHeaders := temp);
    match p
    case Err(e) => (s1, Some(e))
    case Ok(req) => (s1.(lastRequest := Some(req)), None)
  }

  /** `preRequest` fails exactly when the request cannot be prepared from
      the mapped components, and otherwise stores the prepared request. */
  lemma PreRequestOutcome(env: Env, s: ConnState, stack: Stack, call: Call)
    requires IsConfig(env.config)
    ensures var body := if IsNil(call.body) then VNull else call.body;
      var c := Middleware.RequestRollup(stack.requestMaps, Components(body, call.params, MergeHeaders(s.headers, TempHeadersOf(call.headers), s.permanentHeaders)));
      var p := Prepared(BaseOf(env, s.tempHostname), env.Format(), env.resolve, env.isValidUrl, call.methodName, StripSlash(call.endpoint), c);
      var (s1, err) := PreRequestSpec(env, s, stack, call);
      (err.None? <==> p.Ok?) && (p.Ok? ==> s1.lastRequest == Some(p.value)) && (p.Err? ==> err == Some(p.msg) && s1.lastRequest == s.lastRequest) &&
      s1 == s.(tempHeaders := TempHeadersOf(call.headers), lastRequest := s1.lastRequest)
  {
  }

  /** `postRequest(response)`: the temporary hostname is cleared; an error
      clears the last response and is rethrown; a response is stored, the
      response taps see it, and the response maps replace it. */
  function PostRequestSpec(s: ConnState, stack: Stack, fetched: FetchResult): (ConnState, Option<string>, seq<string>)
    requires s.lastRequest.Some?
  {
    match fetched
    case FetchFailed(e) => (s.(tempHostname := None, lastResponse := None), Some(e), [])
    case Fetched(resp) =>
      (s.(tempHostname := None, lastResponse := Some(Middleware.ResponseRollup(stack.responseMaps, s.lastRequest.value, resp))),
       None,
       Middleware.ResponseTapEvents(stack.responseTaps, resp, s.lastRequest.value))
  }

  /** `request`'s defaults: `params = {}` and `headers = {}`. */
  function CallDefaults(call: Call): Call {
    call.(params := if call.params.VUndefined? then VObject([]) else call.params,
          headers := if call.headers.None? then Some([]) else call.headers)
  }

  /** Calling `clone()` on the missing last response. */
  const CloneOfUndefined: string := "TypeError: Cannot read properties of undefined (reading 'clone')"

  /** The request taps, run after the fetch with a `next` that does nothing,
      and the result read from the stored response. */
  function Finish(s: ConnState, stack: Stack, events: seq<string>): Outcome {
    var tap := Middleware.Chain(stack.requestTaps, |stack.requestTaps|, [], true, |stack.requestTaps|);
    if !tap.invoked then Outcome(s, Err(Middleware.TapError(tap.steps)), events + tap.events)
    else if s.lastResponse.None? then Outcome(s, Err(CloneOfUndefined), events + tap.events)
    else Outcome(s, Ok(s.lastResponse.value), events + tap.events)
  }

  /** `request` as written: a rejected fetch is caught and logged before
      `postRequest` sees it, so the cycle goes on to the taps and returns
      whatever response is still stored. */
  function RequestAsWritten(env: Env, s: ConnState, stack: Stack, call: Call, fetched: FetchResult): Outcome
    requires IsConfig(env.config)
  {
    var (s1, err) := PreRequestSpec(env, s, stack, CallDefaults(call));
    if err.Some? then Outcome(s1, Err(err.value), [])
    else match fetched
      case FetchFailed(_) => Finish(s1, stack, [])
      case Fetched(_) =>
        var (s2, _, events) := PostRequestSpec(s1, stack, fetched);
        Finish(s2, stack, events)
  }

  /** `request` with the fetch's rejection handed to `postRequest`, whose
      error branch clears the last response and rethrows. */
  function RequestSpec(env: Env, s: ConnState, stack: Stack, call: Call, fetched: FetchResult): Outcome
    requires IsConfig(env.config)
  {
    var (s1, err) := PreRequestSpec(env, s, stack, CallDefaults(call));
    if err.Some? then Outcome(s1, Err(err.value), [])
    else
      var (s2, perr, events) := PostRequestSpec(s1, stack, fetched);
      if perr.Some? then Outcome(s2, Err(perr.value), events)
      else Finish(s2, stack, events)
  }

  /** As written, a failed fetch returns the previous call's response (or
      fails on a missing one) and keeps the temporary hostname. */
  lemma StaleResponseAfterFailedFetch(env: Env, s: ConnState, stack: Stack, call: Call, e: string, prev: Response)
    requires IsConfig(env.config) && s.lastResponse == Some(prev)
    requires PreRequestSpec(env, s, stack, CallDefaults(call)).1.None?
    requires forall i | 0 <= i < |stack.requestTaps| :: stack.requestTaps[i].callsNext
    ensures RequestAsWritten(env, s, stack, call, FetchFailed(e)).result == Ok(prev)
    ensures RequestAsWritten(env, s, stack, call, FetchFailed(e)).state.tempHostname == s.tempHostname
    ensures RequestSpec(env, s, stack, call, FetchFailed(e)).result == Err(e)
    ensures RequestSpec(env, s, stack, call, FetchFailed(e)).state.lastResponse.None?
  {
    var taps := stack.requestTaps;
    Middleware.ChainClosedForm(taps, |taps|, [], true, |taps|);
    assert Middleware.LastSkipper(taps, |taps|).None?;
  }

  /** With a fetch that succeeds the two agree. */
  lemma RequestAgreesOnSuccess(env: Env, s: ConnState, stack: Stack, call: Call, resp: Response)
    requires IsConfig(env.config)
    ensures RequestAsWritten(env, s, stack, call, Fetched(resp)) == RequestSpec(env, s, stack, call, Fetched(resp))
  {
  }

  /** A successful request returns the response as the response maps left
      it, over the fetched one and the stored request. */
  lemma RequestResult(env: Env, s: ConnState, stack: Stack, call: Call, resp: Response)
    requires IsConfig(env.config)
    ensures var o := RequestSpec(env, s, stack, call, Fetched(resp));
      o.result.Ok? ==> (o.state.lastRequest.Some? && o.state.tempHostname.None? &&
        o.result.value == Middleware.ResponseRollup(stack.responseMaps, o.state.lastRequest.value, resp))
  {
  }

  // ---------------------------------------------------------------------
  // `refire`.

  const UrlOfUndefined: string := "TypeError: Cannot read properties of undefined (reading 'url')"

  /** `${protocol}//${host}${pathname}` with the hostname's length cut off the front. */
  function RefireEndpoint(url: Location, hostname: string): string {
    SubstringFrom(url.protocol + "//" + url.host + url.pathname, |hostname|)
  }

  /** The call `refire` makes, as written: the query is passed as the
      iterator `url.searchParams.entries()`. */
  function RefireCallAsWritten(env: Env, s: ConnState): Result<Call>
    requires IsConfig(env.config)
  {
    match s.lastRequest
    case None => Err(UrlOfUndefined)
    case Some(req) => Ok(Call(req.methodName, RefireEndpoint(req.url, env.Hostname()), BodyValue(req.body), VIterator(req.url.query), Some(s.tempHeaders)))
  }

  /** `Object.fromEntries(pairs)` with string values. */
  function FromEntries(pairs: seq<(string, string)>): Value {
    VObject(Assign([], StringValued(pairs)))
  }

  /** Each string value of `pairs` as a string value. */
  function StringValued(pairs: seq<(string, string)>): (r: Record<string, Value>)
    ensures |r| == |pairs| && forall i | 0 <= i < |pairs| :: r[i] == (pairs[i].0, VString(pairs[i].1))
  {
    seq(|pairs|, i requires 0 <= i < |pairs| => (pairs[i].0, VString(pairs[i].1)))
  }

  /** The call `refire` makes with the query passed as an object. */
  function RefireCall(env: Env, s: ConnState): Result<Call>
    requires IsConfig(env.config)
  {
    match s.lastRequest
    case None => Err(UrlOfUndefined)
    case Some(req) => Ok(Call(req.methodName, RefireEndpoint(req.url, env.Hostname()), BodyValue(req.body), FromEntries(req.url.query), Some(s.tempHeaders)))
  }

  /** As written, the replayed call has no parameters: an iterator has no
      own enumerable properties, so every query pair of the last request is
      lost, whatever the format. */
  lemma RefireDropsQuery(env: Env, s: ConnState, base: string, format: Value)
    requires IsConfig(env.config) && s.lastRequest.Some?
    ensures var call := RefireCallAsWritten(env, s).value;
      ParamEntries(CallDefaults(call).params) == [] &&
      AppendAll(ParamEntries(CallDefaults(call).params), BuildUrlEntry(format)) == Appended([], None)
  {
  }

  /** With the query passed as an object, a last request whose query names
      are distinct gets the same pairs appended again, in order, under the
      "delimited" and the "php" format alike. */
  lemma RefireKeepsQuery(env: Env, s: ConnState, format: Value)
    requires IsConfig(env.config) && s.lastRequest.Some?
    requires UniqueKeys(s.lastRequest.value.url.query)
    requires format == VString("delimited") || format == VString("php")
    ensures var call := RefireCall(env, s).value;
      AppendAll(ParamEntries(CallDefaults(call).params), BuildUrlEntry(format)) == Appended(s.lastRequest.value.url.query, None)
  {
    var q := s.lastRequest.value.url.query;
    assert CallDefaults(RefireCall(env, s).value).params == FromEntries(q);
    FromEntriesAppend(q, format);
  }

  /** The object `Object.fromEntries` builds from distinct names appends
      the same pairs again, in order. */
  lemma FromEntriesAppend(q: seq<(string, string)>, format: Value)
    requires UniqueKeys(q)
    requires format == VString("delimited") || format == VString("php")
    ensures AppendAll(ParamEntries(FromEntries(q)), BuildUrlEntry(format)) == Appended(q, None)
  {
    var r := StringValued(q);
    assert UniqueKeys(r) by {
      forall i, j | 0 <= i < j < |r| ensures r[i].0 != r[j].0 {
        assert r[i].0 == q[i].0 && r[j].0 == q[j].0;
      }
    }
    AssignToEmpty(r);
    StringEntriesAppend(q, format);
  }

  lemma {:induction false} AssignToEmpty<V>(r: Record<string, V>)
    requires UniqueKeys(r)
    ensures Assign([], r) == r
  {
    AssignPrefix([], r);
  }

  lemma {:induction false} AssignPrefix<V>(p: Record<string, V>, r: Record<string, V>)
    requires UniqueKeys(p + r)
    ensures Assign(p, r) == p + r
    decreases |r|
  {
    if r != [] {
      assert r[0].0 !in Keys(p) by {
        forall i | 0 <= i < |p| ensures Keys(p)[i] != r[0].0 {
          assert (p + r)[i] == p[i] && (p + r)[|p|] == r[0];
        }
      }
      SetAbsentString(p, r[0].0, r[0].1);
      assert p + r == (p + [r[0]]) + r[1..];
      AssignPrefix(p + [r[0]], r[1..]);
    }
  }

  lemma {:induction false} SetAbsentString<V>(p: Record<string, V>, k: string, v: V)
    requires k !in Keys(p)
    ensures Set(p, k, v) == p + [(k, v)]
    decreases |p|
  {
    if p != [] {
      KeysCons(p);
      SetAbsentString(p[1..], k, v);
      ConsSnoc(p, (k, v));
    }
  }

  lemma ConsSnoc<T>(s: seq<T>, x: T)
    requires s != []
    ensures [s[0]] + (s[1..] + [x]) == s + [x]
  {
    assert [s[0]] + (s[1..] + [x]) == s + [x];
  }

  lemma {:induction false} StringEntriesAppend(q: seq<(string, string)>, format: Value)
    requires format == VString("delimited") || format == VString("php")
    ensures AppendAll(StringValued(q), BuildUrlEntry(format)) == Appended(q, None)
    decreases |q|
  {
    if q != [] {
      var init := q[..|q| - 1];
      var last := q[|q| - 1];
      var r := StringValued(q);
      assert r[..|r| - 1] == StringValued(init);
      StringEntriesAppend(init, format);
      StringEntry(format, last.0, last.1);
      InitLast(q);
    }
  }

  lemma InitLast<T>(s: seq<T>)
    requires s != []
    ensures s[..|s| - 1] + [s[|s| - 1]] == s
  {
  }

  /** A string parameter is appended as itself under either format. */
  lemma StringEntry(format: Value, k: string, s: string)
    requires format == VString("delimited") || format == VString("php")
    ensures BuildUrlEntry(format)(k, VString(s)) == Appended([(k, s)], None)
  {
  }

  // ---------------------------------------------------------------------
  // The connector object.

  /** The two connector classes, `REST` and `Graphql`. */
  datatype ConnectorKind = RestKind | GraphqlKind

  /** The own properties of a client object that `initializeClient`
      assigns: each name is bound to the connector whose method it calls. */
  class MethodTable {
    var methods: map<string, Connector>

    constructor()
      ensures methods == map[]
    {
      methods := map[];
    }
  }

  /** The properties after binding each of `names` to `conn`. */
  function Bind(methods: map<string, Connector>, names: seq<string>, conn: Connector): (r: map<string, Connector>)
    ensures r.Keys == methods.Keys + set n | n in names
    ensures forall n | n in names :: r[n] == conn
    ensures forall n | n in methods && n !in names :: r[n] == methods[n]
    decreases |names|
  {
    if names == [] then methods else Bind(methods[names[0] := conn], names[1..], conn)
  }

  class Connector {
    const env: Env
    const kind: ConnectorKind
    var middleware: Middleware.MiddlewareStack?
    var headers: Record<string, string>
    var tempHeaders: Record<string, string>
    var permanentHeaders: Record<string, string>
    var tempHostname: Option<string>
    var lastRequest: Option<Request>
    var lastResponse: Option<Response>

    ghost predicate Valid()
      reads this
    {
      IsConfig(env.config) && UniqueKeys(headers) && UniqueKeys(tempHeaders) && UniqueKeys(permanentHeaders)
    }

    function State(): ConnState
      reads this
    {
      ConnState(headers, tempHeaders, permanentHeaders, tempHostname, lastRequest, lastResponse)
    }

    constructor(env: Env, kind: ConnectorKind)
      requires IsConfig(env.config)
      ensures Valid() && this.env == env && this.kind == kind && middleware == null
      ensures State() == ConnState([], [], [], None, None, None)
    {
      this.env := env;
      this.kind := kind;
      middleware := null;
      headers := [];
      tempHeaders := [];
      permanentHeaders := [];
      tempHostname := None;
      lastRequest := None;
      lastResponse := None;
    }

    /** The `middleware` setter. */
    method SetMiddleware(m: Middleware.MiddlewareStack)
      modifies this
      ensures middleware == m && State() == old(State())
    {
      middleware := m;
    }

    /** The `headers` getter: each name gets its permanent value, else its
        temporary one, else its persistent one. */
    function Headers(): (h: Record<string, string>)
      reads this
      requires Valid()
      ensures UniqueKeys(h)
      ensures forall k :: (Get(h, k) ==
        if k in Keys(permanentHeaders) then Get(permanentHeaders, k)
        else if k in Keys(tempHeaders) then Get(tempHeaders, k)
        else Get(headers, k))
    {
      forall k ensures Get(MergeHeaders(headers, tempHeaders, permanentHeaders), k) ==
        if k in Keys(permanentHeaders) then Get(permanentHeaders, k)
        else if k in Keys(tempHeaders) then Get(tempHeaders, k)
        else Get(headers, k) {
        HeaderPrecedence(headers, tempHeaders, permanentHeaders, k);
      }
      HeaderPrecedence(headers, tempHeaders, permanentHeaders, "");
      MergeHeaders(headers, tempHeaders, permanentHeaders)
    }

    /** The `headers` setter: the persistent headers are replaced wholesale. */
    method SetHeaders(h: Record<string, string>)
      requires Valid() && UniqueKeys(h)
      modifies this
      ensures Valid() && headers == h
      ensures State() == old(State()).(headers := h) && middleware == old(middleware)
    {
      headers := h;
    }

    /** `setHeader(name, value)`: one persistent header, the string itself or
        its `toString()`; every other header stays. */
    method SetHeader(name: string, value: Value)
      requires Valid() && Stringable(value)
      modifies this
      ensures Valid()
      ensures headers == Set(old(headers), name, ToString(value))
      ensures forall j :: Get(headers, j) == if j == name then Some(ToString(value)) else Get(old(headers), j)
      ensures State() == old(State()).(headers := headers) && middleware == old(middleware)
    {
      var text := if value.VString? then value.s else ToString(value);
      SetUniqueKeys(headers, name, text);
      forall j ensures Get(Set(headers, name, text), j) == if j == name then Some(text) else Get(headers, j) {
        GetSet(headers, name, text, j);
      }
      headers := Set(headers, name, text);
    }

    /** `formatSearchParam(key, value, url)`. */
    method FormatSearchParam(key: string, value: Value, url: UrlObject) returns (error: Option<string>)
      requires Stringable(value)
      modifies url
      ensures url.location == old(url.location).(query := old(url.location.query) + FormatAppended(env.Format(), key, value).pairs)
      ensures error == FormatAppended(env.Format(), key, value).error
    {
      var format := env.Format();
      if format == VString("delimited") {
        url.Append(key, ToString(value));
        error := None;
      } else if format == VString("php") {
        error := FormatSearchParamPhp(key, value, url);
      } else {
        error := None;
      }
    }

    /** The loop of `buildUrl` over the parameter entries: each entry is
        checked and formatted in turn, and the first that throws stops it. */
    method AppendParams(entries: Record<string, Value>, url: UrlObject) returns (error: Option<string>)
      modifies url
      ensures error == AppendAll(entries, BuildUrlEntry(env.Format())).error
      ensures error.None? ==>
        url.location == old(url.location).(query := old(url.location.query) + AppendAll(entries, BuildUrlEntry(env.Format())).pairs)
    {
      var step := BuildUrlEntry(env.Format());
      ghost var start := url.location;
      ghost var added: seq<(string, string)> := [];
      var i := 0;
      while i < |entries|
        invariant 0 <= i <= |entries|
        invariant AppendAll(entries[..i], step) == Appended(added, None)
        invariant url.location == start.(query := start.query + added)
      {
        var (key, value) := entries[i];
        AppendAllStep(entries, i, step);
        if IsNil(value) {
          AppendAllStops(entries, i + 1, step);
          return Some(ValueTypeError(value));
        }
        error := FormatSearchParam(key, value, url);
        ghost var pairs := FormatAppended(env.Format(), key, value).pairs;
        QueryExtend(start, added, pairs);
        added := added + pairs;
        if error.Some? {
          AppendAllStops(entries, i + 1, step);
          return;
        }
        i := i + 1;
      }
      assert entries[..i] == entries;
      return None;
    }

    /** `buildUrl(endpoint, params)`. */
    method BuildUrl(endpoint: string, params: Value) returns (r: Result<Location>)
      requires IsConfig(env.config)
      ensures r == BuiltUrl(BaseOf(env, tempHostname), endpoint, params, env.Format(), env.resolve, env.isValidUrl)
    {
      var resolved := env.resolve(endpoint, BaseOf(env, tempHostname));
      if resolved.None? {
        return Err("TypeError: Invalid URL");
      }
      var l := resolved.value;
      if !env.isValidUrl(Href(l)) {
        return Err("Invalid URL: " + Href(l));
      }
      var url := new UrlObject(l);
      var error := AppendParams(ParamEntries(params), url);
      if error.Some? {
        return Err(error.value);
      }
      return Ok(url.location);
    }

    /** `preRequest(method, endpoint, body, params, headers)`. */
    method PreRequest(call: Call) returns (error: Option<string>)
      requires Valid() && middleware != null
      modifies this
      ensures Valid() && middleware == old(middleware)
      ensures (State(), error) == PreRequestSpec(env, old(State()), StackOf(middleware), call)
    {
      tempHeaders := TempHeadersOf(call.headers);
      var body := if IsNil(call.body) then VNull else call.body;
      var components := middleware.ApplyRequestMap(Components(body, call.params, Headers()));
      var url := BuildUrl(StripSlash(call.endpoint), components.params);
      if url.Err? {
        return Some(url.msg);
      }
      var request := NewRequest(url.value, call.methodName, components.headers, BuildBody(components.body));
      if request.Err? {
        return Some(request.msg);
      }
      lastRequest := Some(request.value);
      return None;
    }

    /** `postRequest(response)`. */
    method PostRequest(fetched: FetchResult) returns (error: Option<string>, events: seq<string>)
      requires Valid() && middleware != null && lastRequest.Some?
      modifies this
      ensures Valid() && middleware == old(middleware)
      ensures (State(), error, events) == PostRequestSpec(old(State()), StackOf(middleware), fetched)
    {
      tempHostname := None;
      match fetched
      case FetchFailed(e) =>
        lastResponse := None;
        return Some(e), [];
      case Fetched(resp) =>
        lastResponse := Some(resp);
        events := middleware.ApplyResponseTap(resp, lastRequest.value);
        lastResponse := Some(middleware.ApplyResponseMap(lastRequest.value, resp));
        return None, events;
    }

    /** `request(method, endpoint, body, params, headers)`, with the fetch's
        outcome given: the request is prepared, fetched and post-processed,
        the request taps run, and the stored response is returned. */
    method SendRequest(call: Call, fetched: FetchResult) returns (result: Result<Response>, events: seq<string>)
      requires Valid() && middleware != null
      modifies this
      ensures Valid() && middleware == old(middleware)
      ensures Outcome(State(), result, events) == RequestSpec(env, old(State()), StackOf(middleware), call, fetched)
    {
      var err := PreRequest(CallDefaults(call));
      if err.Some? {
        return Err(err.value), [];
      }
      var perr;
      perr, events := PostRequest(fetched);
      if perr.Some? {
        return Err(perr.value), events;
      }
      var tapEvents, tapError := middleware.ApplyRequestTap([]);
      events := events + tapEvents;
      if tapError.Some? {
        return Err(tapError.value), events;
      }
      if lastResponse.None? {
        return Err(CloneOfUndefined), events;
      }
      return Ok(lastResponse.value), events;
    }

    /** `refire()`: the last request replayed with the current temporary headers. */
    method Refire(fetched: FetchResult) returns (result: Result<Response>, events: seq<string>)
      requires Valid() && middleware != null
      modifies this
      ensures Valid() && middleware == old(middleware)
      ensures RefireCall(env, old(State())).Err? ==>
        result == Err(UrlOfUndefined) && events == [] && State() == old(State())
      ensures RefireCall(env, old(State())).Ok? ==>
        Outcome(State(), result, events) == RequestSpec(env, old(State()), StackOf(middleware), RefireCall(env, old(State())).value, fetched)
    {
      var call := RefireCall(env, State());
      if call.Err? {
        return Err(call.msg), [];
      }
      result, events := SendRequest(call.value, fetched);
    }
  }

  /** The stack's sets as a value. */
  function StackOf(m: Middleware.MiddlewareStack): Stack
    reads m
  {
    Stack(m.requestTaps, m.responseTaps, m.requestMaps, m.responseMaps)
  }
}
