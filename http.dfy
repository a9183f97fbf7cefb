/** The Fetch-standard objects the connectors build and pass around: URLs
    (with their query as a list of name/value pairs), request bodies,
    `Request` and `Response`, the `Headers` normalisation, and the request
    components the request maps work on. */
module Http {
  import opened Wrappers
  import opened Text
  import opened Records
  import opened JsValues

  /** `HTTPMethods`, the lower-case method names the library accepts. */
  datatype Method = GET | POST | PUT | PATCH | DELETE | OPTIONS | HEAD | CONNECT | TRACE
  {
    function Name(): string {
      match this
      case GET => "get"
      case POST => "post"
      case PUT => "put"
      case PATCH => "patch"
      case DELETE => "delete"
      case OPTIONS => "options"
      case HEAD => "head"
      case CONNECT => "connect"
      case TRACE => "trace"
    }
  }

  function AsciiUpperChar(c: char): char {
    if 'a' <= c <= 'z' then (c as int - 32) as char else c
  }

  function AsciiUpper(s: string): (r: string)
    ensures |r| == |s|
  {
    seq(|s|, i requires 0 <= i < |s| => AsciiUpperChar(s[i]))
  }

  /** The Fetch standard upper-cases a method only when it is, ignoring
      case, one of DELETE, GET, HEAD, OPTIONS, POST and PUT ("patch" stays
      "patch"). */
  function NormalizeMethod(m: string): string {
    var u := AsciiUpper(m);
    if u in {"DELETE", "GET", "HEAD", "OPTIONS", "POST", "PUT"} then u else m
  }

  /** CONNECT, TRACE and TRACK are refused by `new Request`. */
  predicate ForbiddenMethod(m: string) {
    AsciiUpper(m) in {"CONNECT", "TRACE", "TRACK"}
  }

  /** A parsed URL: `protocol` keeps its colon ("https:"), `pathname` starts
      with "/", and the query is the list of `searchParams` pairs. */
  datatype Location = Location(protocol: string, host: string, pathname: string, query: seq<(string, string)>)

  function QueryText(query: seq<(string, string)>): string
    decreases |query|
  {
    if query == [] then ""
    else query[0].0 + "=" + query[0].1 + (if |query| == 1 then "" else "&" + QueryText(query[1..]))
  }

  /** `url.toString()`, with the query written unencoded. */
  function Href(l: Location): string {
    l.protocol + "//" + l.host + l.pathname + (if l.query == [] then "" else "?" + QueryText(l.query))
  }

  /** A request or response body as handed to `new Request`. */
  datatype Body =
    | NoBody
    | TextBody(text: string)
      /** Any other body object (a stream, a plain object that is not JSON). */
    | OtherBody(value: Value)

  datatype Request = Request(url: Location, methodName: string, headers: Record<string, string>, body: Body)

  datatype Response = Response(status: int, headers: Record<string, string>, body: Body)

  /** `StdRequestComponents`: what request maps receive and return. */
  datatype Components = Components(body: Value, params: Value, headers: Record<string, string>)

  // ---------------------------------------------------------------------
  // `new Headers(init)`.

  /** Appends one header the way `Headers.append` does: a name already
      present gets the new value added after ", ". */
  function AppendHeader(acc: Record<string, string>, name: string, value: string): Record<string, string> {
    match Get(acc, name)
    case Some(prev) => Set(acc, name, prev + ", " + value)
    case None => Set(acc, name, value)
  }

  /** The entries of `new Headers(init)`: names lower-cased, values trimmed
      of HTTP whitespace, repeated names combined in order. */
  function NormalizeHeaders(h: Record<string, string>): Record<string, string>
    decreases |h|
  {
    if h == [] then []
    else
      var last := h[|h| - 1];
      AppendHeader(NormalizeHeaders(h[..|h| - 1]), AsciiLower(last.0), Trim(last.1))
  }

  /** The trimmed values of the entries of `h` whose name lower-cases to `n`, in order. */
  function ValuesNamed(h: Record<string, string>, n: string): seq<string>
    decreases |h|
  {
    if h == [] then []
    else
      var last := h[|h| - 1];
      ValuesNamed(h[..|h| - 1], n) + (if AsciiLower(last.0) == n then [Trim(last.1)] else [])
  }

  lemma {:induction false} JoinSnoc(parts: seq<string>, x: string, sep: string)
    ensures Join(parts + [x], sep) == if parts == [] then x else Join(parts, sep) + sep + x
    decreases |parts|
  {
    if |parts| >= 2 {
      JoinSnoc(parts[1..], x, sep);
      assert (parts + [x])[1..] == parts[1..] + [x];
    } else if |parts| == 1 {
      assert (parts + [x])[1..] == [x];
    }
  }

  /** Looking up a name in the normalised headers gives every value sent
      under that name (in any letter case), trimmed and joined with ", ". */
  lemma {:induction false} NormalizeHeadersGet(h: Record<string, string>, n: string)
    ensures Get(NormalizeHeaders(h), n) ==
      if ValuesNamed(h, n) == [] then None else Some(Join(ValuesNamed(h, n), ", "))
    decreases |h|
  {
    if h != [] {
      var init := h[..|h| - 1];
      var last := h[|h| - 1];
      var acc := NormalizeHeaders(init);
      var vs := ValuesNamed(init, n);
      var name := AsciiLower(last.0);
      var value := Trim(last.1);
      assert NormalizeHeaders(h) == AppendHeader(acc, name, value);
      NormalizeHeadersGet(init, n);
      assert Get(acc, n) == if vs == [] then None else Some(Join(vs, ", "));
      AppendHeaderGet(acc, name, value, n);
      if name == n {
        JoinSnoc(vs, value, ", ");
        assert ValuesNamed(h, n) == vs + [value];
      } else {
        assert ValuesNamed(h, n) == vs;
      }
    }
  }

  lemma AppendHeaderGet(acc: Record<string, string>, name: string, value: string, n: string)
    ensures Get(AppendHeader(acc, name, value), n) ==
      if n != name then Get(acc, n)
      else if Get(acc, n).Some? then Some(Get(acc, n).value + ", " + value)
      else Some(value)
  {
    match Get(acc, name)
    case Some(prev) => GetSet(acc, name, prev + ", " + value, n);
    case None => GetSet(acc, name, value, n);
  }

  /** The normalised headers have distinct, lower-case names. */
  lemma {:induction false} NormalizeHeadersNames(h: Record<string, string>)
    ensures UniqueKeys(NormalizeHeaders(h))
    ensures forall i | 0 <= i < |NormalizeHeaders(h)| ::
      AsciiLower(NormalizeHeaders(h)[i].0) == NormalizeHeaders(h)[i].0
    decreases |h|
  {
    if h != [] {
      var init := h[..|h| - 1];
      var last := h[|h| - 1];
      var acc := NormalizeHeaders(init);
      var name := AsciiLower(last.0);
      NormalizeHeadersNames(init);
      var v := match Get(acc, name) case Some(prev) => prev + ", " + Trim(last.1) case None => Trim(last.1);
      assert NormalizeHeaders(h) == Set(acc, name, v);
      SetUniqueKeys(acc, name, v);
      KeysSet(acc, name, v);
      AsciiLowerIdempotent(last.0);
      var r := Set(acc, name, v);
      forall i | 0 <= i < |r| ensures AsciiLower(r[i].0) == r[i].0 {
        assert r[i].0 in Keys(r);
        assert r[i].0 in Keys(acc) || r[i].0 == name;
      }
    }
  }

  // ---------------------------------------------------------------------
  // `new Request(url, init)`.

  /** `new Request(url, {method, headers, body})`: refuses a forbidden
      method and a body on GET or HEAD (each a `TypeError`), normalises the
      method and the headers otherwise. */
  function NewRequest(url: Location, methodName: string, headers: Record<string, string>, body: Body): (r: Result<Request>)
    ensures r.Ok? <==> !ForbiddenMethod(methodName) && (body.NoBody? || NormalizeMethod(methodName) !in {"GET", "HEAD"})
    ensures r.Ok? ==> r.value == Request(url, NormalizeMethod(methodName), NormalizeHeaders(headers), body)
  {
    if ForbiddenMethod(methodName) then Err("TypeError: Method is forbidden.")
    else if NormalizeMethod(methodName) in {"GET", "HEAD"} && !body.NoBody? then
      Err("TypeError: Request with GET/HEAD method cannot have body.")
    else Ok(Request(url, NormalizeMethod(methodName), NormalizeHeaders(headers), body))
  }

  /** The lower-case method names survive normalisation as their upper-case
      form, except "patch", and "connect"/"trace" are refused. */
  lemma MethodNormalization(m: Method)
    ensures ForbiddenMethod(m.Name()) <==> m in {CONNECT, TRACE}
    ensures !(m in {CONNECT, TRACE, PATCH}) ==> NormalizeMethod(m.Name()) == AsciiUpper(m.Name())
    ensures NormalizeMethod(PATCH.Name()) == "patch"
  {
    UpperName(m);
    UpperName(PATCH);
  }

  /** Only get and head normalise to a method that may not carry a body. */
  lemma BodylessMethod(m: Method)
    ensures NormalizeMethod(m.Name()) in {"GET", "HEAD"} <==> m in {GET, HEAD}
  {
    UpperName(m);
  }

  /** The upper-case form of each lower-case method name. */
  lemma UpperName(m: Method)
    ensures AsciiUpper(m.Name()) ==
      match m
      case GET => "GET"
      case POST => "POST"
      case PUT => "PUT"
      case PATCH => "PATCH"
      case DELETE => "DELETE"
      case OPTIONS => "OPTIONS"
      case HEAD => "HEAD"
      case CONNECT => "CONNECT"
      case TRACE => "TRACE"
  {
    match m
    case GET => Upper("get", "GET");
    case POST => Upper("post", "POST");
    case PUT => Upper("put", "PUT");
    case PATCH => Upper("patch", "PATCH");
    case DELETE => Upper("delete", "DELETE");
    case OPTIONS => Upper("options", "OPTIONS");
    case HEAD => Upper("head", "HEAD");
    case CONNECT => Upper("connect", "CONNECT");
    case TRACE => Upper("trace", "TRACE");
  }

  lemma Upper(s: string, u: string)
    requires |s| == |u| && forall i | 0 <= i < |s| :: AsciiUpperChar(s[i]) == u[i]
    ensures AsciiUpper(s) == u
  {
  }
}
