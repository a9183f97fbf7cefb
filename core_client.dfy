/** The `Client` of the second API generation: configuration defaults,
    the auth adapter `getAuth` picks, a named middleware stack the client
    delegates to, and `init`, which installs the auth middleware. */
module CoreClient {
  import opened Wrappers
  import opened Records
  import opened JsValues
  import opened Config
  import opened CoreMiddleware
  import opened CoreGraphql

  /** The adapter classes `getAuth` can return. */
  datatype CoreAuth = CoreBasic | CoreBearer | CoreOAuth2

  /** `getAuth(config)`: a switch on `config?.type`. */
  function GetAuth(config: Value): Option<CoreAuth> {
    var t := FieldOrUndefined(config, "type");
    if t == VString("basic") then Some(CoreBasic)
    else if t == VString("bearer") then Some(CoreBearer)
    else if t == VString("oauth2") then Some(CoreOAuth2)
    else None
  }

  /** No adapter for a missing configuration, a missing type, "none", or a
      type the switch does not list; one adapter per listed type. */
  lemma GetAuthSpec(config: Value)
    ensures GetAuth(config).None? <==> FieldOrUndefined(config, "type") !in {VString("basic"), VString("bearer"), VString("oauth2")}
    ensures GetAuth(VUndefined).None? && GetAuth(VObject([("type", VString("none"))])).None?
    ensures GetAuth(config) == Some(CoreOAuth2) <==> Field(config, "type") == Some(VString("oauth2"))
  {
    assert Field(VObject([("type", VString("none"))]), "type") == Some(VString("none"));
  }

  /** Only `type` is read. */
  lemma GetAuthReadsOnlyType(config: Value, k: string, x: Value)
    requires config.VObject? && k != "type"
    ensures GetAuth(SetField(config, k, x)) == GetAuth(config)
  {
    var w := SetField(config, k, x);
    assert Field(w, "type") == Field(config, "type");
    SameTypeSameAuth(w, config);
  }

  /** `getAuth` reads only the `type` property. */
  lemma SameTypeSameAuth(w: Value, v: Value)
    requires Field(w, "type") == Field(v, "type")
    ensures GetAuth(w) == GetAuth(v)
  {
    assert FieldOrUndefined(w, "type") == FieldOrUndefined(v, "type");
  }

  /** `config.auth ??= {type: "none"}; config.searchParamFormat ??= "delimited"`. */
  function CoreConfig(config: Value): (r: Value)
    requires config.VObject?
    ensures GetAuth(FieldOrUndefined(r, "auth")) ==
      if IsNil(FieldOrUndefined(config, "auth")) then None else GetAuth(FieldOrUndefined(config, "auth"))
  {
    var none := VObject([("type", VString("none"))]);
    assert Field(none, "type") == Some(VString("none"));
    WithDefaults(config, none)
  }

  /** The connector `getConnector` returned; only the GraphQL one is part of this model. */
  datatype CoreConnector = RestConnector | Graphql(connector: GraphqlConnector)

  class Client {
    const config: Value
    const auth: Option<CoreAuth>
    const connector: CoreConnector
    const stack: MiddlewareStack
    /** `middleware`, read from the stack once, at construction. */
    const middleware: seq<Handler>
    /** The client object's own properties. */
    const properties: ClientObject

    ghost predicate Valid()
      reads this, stack
    {
      stack.Valid() && middleware == []
    }

    /** `new Client(config)`: the defaults are filled in and the adapter
        chosen from `config.auth`; the stack starts empty. */
    constructor(config: Value, connector: CoreConnector)
      requires config.VObject?
      ensures Valid() && fresh(stack) && fresh(properties)
      ensures this.config == CoreConfig(config) && this.connector == connector
      ensures auth == GetAuth(FieldOrUndefined(CoreConfig(config), "auth"))
      ensures stack.entries == [] && middleware == [] && properties.methods == {}
    {
      var c := CoreConfig(config);
      this.config := c;
      this.auth := GetAuth(FieldOrUndefined(c, "auth"));
      this.connector := connector;
      var s := new MiddlewareStack();
      this.stack := s;
      this.middleware := s.Middleware();
      this.properties := new ClientObject();
    }

    /** `hasMiddleware`, bound to the stack's `has`. */
    function HasMiddleware(name: Key): (b: bool)
      reads this, stack
      ensures b <==> name in Keys(stack.entries)
    {
      stack.Has(name)
    }

    /** `getMiddleware`, bound to the stack's `get`. */
    function GetMiddleware(name: Key): (m: Option<Handler>)
      reads this, stack
      requires Valid()
      ensures m.Some? <==> name in Keys(stack.entries)
      ensures forall i | 0 <= i < |stack.entries| && stack.entries[i].0 == name :: m == Some(stack.entries[i].1)
    {
      stack.GetMiddleware(name)
    }

    /** `useMiddleware`, bound to the stack's `use`. */
    method UseMiddleware(fn: Handler, name: Option<Key>) returns (key: Key)
      requires Valid()
      modifies stack
      ensures Valid()
      ensures name.Some? ==> key == name.value
      ensures name.None? ==> key == AutoKey(|old(stack.entries)|)
      ensures forall j :: Get(stack.entries, j) == if j == key then Some(fn) else Get(old(stack.entries), j)
      ensures stack.entries == Set(old(stack.entries), key, fn)
    {
      key := stack.Use(fn, name);
    }

    /** `removeMiddleware`, bound to the stack's `remove`. */
    method RemoveMiddleware(key: Key) returns (removed: bool)
      requires Valid()
      modifies stack
      ensures Valid()
      ensures removed <==> key in Keys(old(stack.entries))
      ensures key !in Keys(stack.entries)
      ensures forall j | j != key :: Get(stack.entries, j) == Get(old(stack.entries), j)
    {
      removed := stack.Remove(key);
    }

    /** `init()`: with an adapter its middleware goes under "auth", without
        one the stack is untouched; the captured `middleware` stays as it was.
        The connector then initialises the client object, which is returned. */
    method Init() returns (r: ClientObject)
      requires Valid()
      modifies stack, properties
      ensures Valid() && r == properties
      ensures auth.None? ==> stack.entries == old(stack.entries)
      ensures auth.Some? ==> Get(stack.entries, Str("auth")).Some?
      ensures auth.Some? ==> forall j | j != Str("auth") :: Get(stack.entries, j) == Get(old(stack.entries), j)
      ensures HasMiddleware(Str("auth")) <==> auth.Some? || old(HasMiddleware(Str("auth")))
      ensures middleware == [] && (auth.Some? ==> |stack.Middleware()| > 0)
      ensures connector.Graphql? ==> properties.methods == old(properties.methods) + {"query"}
    {
      if auth.Some? {
        var handler := new Handler();
        var _ := stack.Use(handler, Some(Str("auth")));
      }
      match connector
      case Graphql(g) =>
        r := g.Init(properties);
      case RestConnector =>
        // The core REST connector's `init` is not part of this model: what
        // it puts on the client object is left open.
        properties.methods := *;
        r := properties;
    }
  }
}
