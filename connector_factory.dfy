/** `createConnector`: the connector class a configuration names. */
module ConnectorFactory {
  import opened Wrappers
  import opened Records
  import opened JsValues
  import opened Http
  import opened Config
  import opened Connectors

  /** The guards in the order `createConnector` tries them: REST first,
      then Graphql, else no connector. */
  function ConnectorKindOf(config: Value): Option<ConnectorKind> {
    if IsRestConnectorConfig(config) then Some(RestKind)
    else if IsGraphqlConnectorConfig(config) then Some(GraphqlKind)
    else None
  }

  /** A connector is made exactly for the configurations `isConfig`
      accepts, and its class is the one the `connector` field names. */
  lemma ConnectorKindSpec(config: Value)
    ensures ConnectorKindOf(config).Some? <==> IsConfig(config)
    ensures ConnectorKindOf(config) == Some(RestKind) <==> IsConfig(config) && Field(config, "connector") == Some(VString("REST"))
    ensures ConnectorKindOf(config) == Some(GraphqlKind) <==> IsConfig(config) && Field(config, "connector") == Some(VString("Graphql"))
  {
    ConnectorGuardsPartition(config);
  }

  /** `createConnector(config)`: a new connector of the named class, with
      no headers and nothing sent yet, or none. */
  method CreateConnector(config: Value, resolve: (string, string) -> Option<Location>, isValidUrl: string -> bool)
    returns (r: Option<Connector>)
    ensures r.Some? <==> ConnectorKindOf(config).Some?
    ensures r.Some? ==> fresh(r.value) && r.value.Valid() && r.value.kind == ConnectorKindOf(config).value
    ensures r.Some? ==> r.value.env == Env(config, resolve, isValidUrl) && r.value.middleware == null
    ensures r.Some? ==> r.value.State() == ConnState([], [], [], None, None, None)
  {
    var kind := ConnectorKindOf(config);
    if kind.None? {
      return None;
    }
    ConnectorKindSpec(config);
    var c := new Connector(Env(config, resolve, isValidUrl), kind.value);
    return Some(c);
  }
}
