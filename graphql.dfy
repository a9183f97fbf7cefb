/** The `Graphql` connector of the first API generation: one `query` verb,
    sent as a POST over the shared request cycle. */
module Graphql {
  import opened Wrappers
  import opened Records
  import opened JsValues
  import opened Http
  import opened Connectors
  import Rest

  /** The one property `initializeClient` binds. */
  const GraphqlNames: seq<string> := ["query"]

  /** The `request` call `query` makes. */
  function QueryCall(endpoint: string, body: Value, params: Value, headers: Option<Record<string, string>>): Call {
    Call("post", endpoint, body, params, headers)
  }

  /** `query(endpoint, body, params, headers)`. */
  method Query(conn: Connector, endpoint: string, body: Value, params: Value,
               headers: Option<Record<string, string>>, fetched: FetchResult) returns (result: Result<Response>, events: seq<string>)
    requires conn.Valid() && conn.middleware != null
    modifies conn
    ensures conn.Valid() && conn.middleware == old(conn.middleware)
    ensures Outcome(conn.State(), result, events) ==
      RequestSpec(conn.env, old(conn.State()), StackOf(conn.middleware), QueryCall(endpoint, body, params, headers), fetched)
  {
    result, events := conn.SendRequest(QueryCall(endpoint, body, params, headers), fetched);
  }

  /** `initializeClient(client)`: `query` becomes a property of the client,
      bound to this connector, and the same client is returned. */
  method InitializeClient(conn: Connector, client: MethodTable) returns (r: MethodTable)
    modifies client
    ensures r == client
    ensures client.methods == Bind(old(client.methods), GraphqlNames, conn)
  {
    client.methods := Bind(client.methods, GraphqlNames, conn);
    return client;
  }

  /** A query is the same request as a REST post with the same arguments,
      so a GraphQL query goes out as "POST" with its body. */
  lemma QueryIsPost(endpoint: string, body: Value, params: Value, headers: Option<Record<string, string>>)
    ensures QueryCall(endpoint, body, params, headers) == Rest.RestCall(POST, endpoint, body, params, headers)
    ensures NormalizeMethod(QueryCall(endpoint, body, params, headers).methodName) == "POST"
  {
    MethodNormalization(POST);
  }
}
