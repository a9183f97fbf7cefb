/** The `Client` of the first API generation: it fills in the configuration
    defaults, builds the auth adapter and then the connector, hands the
    connector a new middleware stack, and delegates to both. */
module Client {
  import opened Wrappers
  import opened Records
  import opened JsValues
  import opened Http
  import opened Config
  import opened OAuth
  import opened Auth
  import opened Connectors
  import opened ConnectorFactory
  import Middleware
  import Rest
  import Graphql

  const AuthAdapterError: string := "Failed to generate an auth adapter from the provided config."
  const ConnectorError: string := "Failed to generate a connector from the provided config."

  /** `config.auth ??= "none"; config.searchParamFormat ??= "delimited"`. */
  function ClientConfig(config: Value): Value
    requires config.VObject?
  {
    WithDefaults(config, VString("none"))
  }

  /** What stops the constructor, in the order it builds: the auth adapter
      (or the error its constructor throws), then the connector. */
  function BuildFailure(config: Value): Option<string>
    requires config.VObject?
  {
    var c := ClientConfig(config);
    if AuthFailure(c).Some? then AuthFailure(c)
    else if ConnectorKindOf(c).None? then Some(ConnectorError)
    else None
  }

  /** A configuration without `auth` gets "none" and so the pass-through
      adapter; it then builds exactly when it names a connector and a
      string hostname. */
  lemma MissingAuthMeansNone(config: Value)
    requires config.VObject? && IsNil(FieldOrUndefined(config, "auth"))
    ensures AdapterKind(ClientConfig(config)) == Some(NoAuthKind)
    ensures BuildFailure(config).None? <==>
      Has(config, "connector", IsConnectorName) && Has(config, "hostname", IsString)
  {
    var c := ClientConfig(config);
    NoneAuthSelected(c);
    assert Field(c, "connector") == Field(config, "connector");
    assert Field(c, "hostname") == Field(config, "hostname");
    ConnectorKindSpec(c);
  }

  /** Auth "none" selects the pass-through adapter, which cannot fail. */
  lemma NoneAuthSelected(c: Value)
    requires c.VObject? && Field(c, "auth") == Some(VString("none"))
    ensures AdapterKind(c) == Some(NoAuthKind) && AuthFailure(c).None? && Has(c, "auth", IsAuthType)
  {
    assert IsNoAuthConfig(c);
  }

  /** Every client that builds has a configuration `isConfig` accepts, and
      a failure of the adapter is reported before any connector is looked at. */
  lemma BuildOrder(config: Value)
    requires config.VObject?
    ensures BuildFailure(config).None? ==> IsConfig(ClientConfig(config)) && AdapterKind(ClientConfig(config)).Some?
    ensures AdapterKind(ClientConfig(config)).None? ==> BuildFailure(config) == Some(AuthAdapterError)
    ensures BuildFailure(config) == Some(ConnectorError) ==> AdapterKind(ClientConfig(config)).Some? && !IsConfig(ClientConfig(config))
  {
    ConnectorKindSpec(ClientConfig(config));
  }

  /** The OAuth2 guard does not read `auth`: a configuration with the OAuth2
      fields but an auth type `isAuthType` refuses still gets an adapter, and
      fails on the connector instead. */
  lemma UnknownAuthType(config: Value, t: string)
    requires config.VObject? && Field(config, "auth") == Some(VString(t)) && t !in AuthTypes
    ensures BuildFailure(config) == Some(if IsOAuth2Config(ClientConfig(config)) then ConnectorError else AuthAdapterError)
  {
    var c := ClientConfig(config);
    assert Field(c, "auth") == Some(VString(t));
    assert !IsConfig(c);
    ConnectorKindSpec(c);
  }

  class Client {
    const config: Value
    const auth: AuthAdapter
    const connector: Connector
    const middleware: Middleware.MiddlewareStack
    /** The client object's own properties, where `_initialize` binds the verbs. */
    const properties: MethodTable

    ghost predicate Valid()
      reads this, connector, middleware
    {
      connector.Valid() && middleware.Valid() && connector.middleware == middleware && connector.env.config == config
    }

    constructor(config: Value, auth: AuthAdapter, connector: Connector, middleware: Middleware.MiddlewareStack, properties: MethodTable)
      ensures this.config == config && this.auth == auth && this.connector == connector
      ensures this.middleware == middleware && this.properties == properties
    {
      this.config := config;
      this.auth := auth;
      this.connector := connector;
      this.middleware := middleware;
      this.properties := properties;
    }

    /** `setHeaders(headers)`: the connector's persistent headers are replaced wholesale. */
    method SetHeaders(h: Record<string, string>)
      requires Valid() && UniqueKeys(h)
      modifies connector
      ensures Valid()
      ensures connector.State() == old(connector.State()).(headers := h)
    {
      connector.SetHeaders(h);
    }

    /** `setHeader`, bound to the connector's own method. */
    method SetHeader(name: string, value: Value)
      requires Valid() && Stringable(value)
      modifies connector
      ensures Valid()
      ensures connector.State() == old(connector.State()).(headers := Set(old(connector.headers), name, ToString(value)))
    {
      connector.SetHeader(name, value);
    }

    /** `tap("request", fn)`: the tap lands in the stack the connector runs. */
    method TapRequest(fn: Middleware.RequestTapFn) returns (remove: Middleware.Remover)
      requires Valid()
      modifies middleware
      ensures Valid()
      ensures connector.middleware.requestTaps == Middleware.Add(old(middleware.requestTaps), fn)
      ensures StackOf(middleware) == old(StackOf(middleware)).(requestTaps := middleware.requestTaps)
      ensures remove == Middleware.RemoveRequestTap(fn)
    {
      remove := middleware.TapRequest(fn);
    }

    /** `tap("response", fn)`. */
    method TapResponse(fn: Middleware.ResponseTapFn) returns (remove: Middleware.Remover)
      requires Valid()
      modifies middleware
      ensures Valid()
      ensures connector.middleware.responseTaps == Middleware.Add(old(middleware.responseTaps), fn)
      ensures StackOf(middleware) == old(StackOf(middleware)).(responseTaps := middleware.responseTaps)
      ensures remove == Middleware.RemoveResponseTap(fn)
    {
      remove := middleware.TapResponse(fn);
    }

    /** `pushMiddleware("request", fn)`. */
    method PushRequest(fn: Middleware.RequestMapFn) returns (remove: Middleware.Remover)
      requires Valid()
      modifies middleware
      ensures Valid()
      ensures connector.middleware.requestMaps == Middleware.Add(old(middleware.requestMaps), fn)
      ensures StackOf(middleware) == old(StackOf(middleware)).(requestMaps := middleware.requestMaps)
      ensures remove == Middleware.RemoveRequestMap(fn)
    {
      remove := middleware.PushRequest(fn);
    }

    /** `pushMiddleware("response", fn)`. */
    method PushResponse(fn: Middleware.ResponseMapFn) returns (remove: Middleware.Remover)
      requires Valid()
      modifies middleware
      ensures Valid()
      ensures connector.middleware.responseMaps == Middleware.Add(old(middleware.responseMaps), fn)
      ensures StackOf(middleware) == old(StackOf(middleware)).(responseMaps := middleware.responseMaps)
      ensures remove == Middleware.RemoveResponseMap(fn)
    {
      remove := middleware.PushResponse(fn);
    }

    /** `_initialize()`: the connector binds its verbs onto this client,
        which is returned. */
    method Initialize() returns (r: MethodTable)
      modifies properties
      ensures r == properties
      ensures properties.methods == Bind(old(properties.methods), if connector.kind == RestKind then Rest.RestNames else Graphql.GraphqlNames, connector)
    {
      if connector.kind == RestKind {
        r := Rest.InitializeClient(connector, properties);
      } else {
        r := Graphql.InitializeClient(connector, properties);
      }
    }
  }

  /** `new Client(config)`: the defaults are filled in, the adapter is built,
      then the connector, which gets a new, empty middleware stack that the
      client's `tap` and `pushMiddleware` also reach. */
  method NewClient(config: Value, resolve: (string, string) -> Option<Location>, isValidUrl: string -> bool)
    returns (r: Result<Client>)
    requires config.VObject?
    ensures r.Err? <==> BuildFailure(config).Some?
    ensures r.Err? ==> r.msg == BuildFailure(config).value
    ensures r.Ok? ==> fresh(r.value) && fresh(r.value.connector) && fresh(r.value.middleware) && fresh(r.value.properties)
    ensures r.Ok? ==> r.value.Valid() && r.value.config == ClientConfig(config)
    ensures r.Ok? ==> r.value.connector.kind == ConnectorKindOf(ClientConfig(config)).value
    ensures r.Ok? ==> r.value.connector.State() == ConnState([], [], [], None, None, None)
    ensures r.Ok? ==> StackOf(r.value.middleware) == Stack([], [], [], []) && r.value.properties.methods == map[]
  {
    var c := ClientConfig(config);
    var adapter := BuildAuthAdapter(c);
    if adapter.Err? {
      return Err(adapter.msg);
    }
    var connector := BuildConnectorAdapter(c, resolve, isValidUrl);
    if connector.Err? {
      return Err(connector.msg);
    }
    var client := Assemble(c, adapter.value, connector.value);
    return Ok(client);
  }

  /** The auth half of `BuildFailure`. */
  function AuthFailure(c: Value): Option<string> {
    if AdapterKind(c) == Some(BasicKind) && BasicCredentials(c).None? then Some(Latin1Error)
    else if AdapterKind(c).None? then Some(AuthAdapterError)
    else None
  }

  /** `#buildAuthAdapter()`: the adapter, or an error when there is none. */
  method BuildAuthAdapter(c: Value) returns (r: Result<AuthAdapter>)
    ensures r.Err? <==> AuthFailure(c).Some?
    ensures r.Err? ==> r.msg == AuthFailure(c).value
    ensures r.Ok? ==> AdapterKind(c).Some?
  {
    var adapter := CreateAuthAdapter(c);
    var basicFails := AdapterKind(c) == Some(BasicKind) && BasicCredentials(c).None?;
    assert adapter.Err? <==> basicFails;
    if adapter.Err? {
      return Err(adapter.msg);
    }
    assert adapter.value.None? <==> AdapterKind(c).None?;
    if adapter.value.None? {
      return Err(AuthAdapterError);
    }
    return Ok(adapter.value.value);
  }

  /** `#buildConnectorAdapter()`: the connector, or an error when there is none. */
  method BuildConnectorAdapter(c: Value, resolve: (string, string) -> Option<Location>, isValidUrl: string -> bool) returns (r: Result<Connector>)
    ensures r.Err? <==> ConnectorKindOf(c).None?
    ensures r.Err? ==> r.msg == ConnectorError
    ensures r.Ok? ==> fresh(r.value) && r.value.Valid() && r.value.kind == ConnectorKindOf(c).value
    ensures r.Ok? ==> r.value.env == Env(c, resolve, isValidUrl) && r.value.State() == ConnState([], [], [], None, None, None)
  {
    var connector := CreateConnector(c, resolve, isValidUrl);
    if connector.None? {
      return Err(ConnectorError);
    }
    return Ok(connector.value);
  }

  /** The end of the constructor: a new stack for the connector, shared with the client. */
  method Assemble(c: Value, adapter: AuthAdapter, connector: Connector) returns (client: Client)
    requires connector.Valid() && connector.env.config == c
    modifies connector
    ensures fresh(client) && fresh(client.middleware) && fresh(client.properties)
    ensures client.connector == connector && client.config == c && client.auth == adapter
    ensures client.Valid() && connector.State() == old(connector.State())
    ensures StackOf(client.middleware) == Stack([], [], [], []) && client.properties.methods == map[]
  {
    var stack := new Middleware.MiddlewareStack();
    connector.SetMiddleware(stack);
    var properties := new MethodTable();
    client := new Client(c, adapter, connector, stack, properties);
  }
}
