/** The GraphQL connector of the second API generation: `query` fixes the
    method and the endpoint of the request it passes on, and `init` adds
    `query` to the client object. */
module CoreGraphql {
  import opened Wrappers
  import opened JsValues

  /** The names a client object carries as its own properties. */
  class ClientObject {
    var methods: set<string>

    constructor()
      ensures methods == {}
    {
      methods := {};
    }
  }

  /** `{...req, method: "post", endpoint: this.config.endpoint}`. */
  function QueryRequest(config: Value, req: Value): (r: Value)
    requires req.VObject?
    ensures r.VObject?
    ensures Field(r, "method") == Some(VString("post"))
    ensures Field(r, "endpoint") == Some(FieldOrUndefined(config, "endpoint"))
    ensures forall k | k != "method" && k != "endpoint" :: Field(r, k) == Field(req, k)
  {
    SetField(SetField(req, "method", VString("post")), "endpoint", FieldOrUndefined(config, "endpoint"))
  }

  /** Whatever method and endpoint the caller gives, two requests that agree
      on everything else are passed on alike, and without a configured
      endpoint the endpoint is undefined. */
  lemma QueryIgnoresMethodAndEndpoint(config: Value, req1: Value, req2: Value, k: string)
    requires req1.VObject? && req2.VObject?
    requires forall j | j != "method" && j != "endpoint" :: Field(req1, j) == Field(req2, j)
    ensures Field(QueryRequest(config, req1), k) == Field(QueryRequest(config, req2), k)
    ensures Field(config, "endpoint").None? ==> Field(QueryRequest(config, req1), "endpoint") == Some(VUndefined)
  {
    if k != "method" && k != "endpoint" {
      assert Field(req1, k) == Field(req2, k);
    }
  }

  class GraphqlConnector {
    const config: Value

    constructor(config: Value)
      ensures this.config == config
    {
      this.config := config;
    }

    /** `init(client)`: `Object.assign(client, {query})`, which returns the client. */
    method Init(client: ClientObject) returns (r: ClientObject)
      modifies client
      ensures r == client
      ensures client.methods == old(client.methods) + {"query"}
    {
      client.methods := client.methods + {"query"};
      return client;
    }
  }
}
