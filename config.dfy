/** The run-time checks on a client configuration: `isAuthType`,
    `isConfig` and the two connector guards. */
module Config {
  import opened Wrappers
  import opened Records
  import opened JsValues

  /** The auth names the first API generation knows. */
  const AuthTypes: set<string> := {"none", "basic", "bearer", "oauth2"}

  /** `isAuthType`: a non-empty string equal to one of the four names. */
  predicate IsAuthType(v: Value) {
    Truthy(v) && IsString(v) && v.s in AuthTypes
  }

  /** `isAuthType` accepts exactly the four names, spelled in lower case; it
      refuses undefined, the empty string and every non-string. */
  lemma IsAuthTypeSpec(v: Value)
    ensures IsAuthType(v) <==> v in {VString("none"), VString("basic"), VString("bearer"), VString("oauth2")}
    ensures !IsAuthType(VUndefined) && !IsAuthType(VString("")) && !IsAuthType(VString("Basic"))
  {
  }

  /** The connector names `isConfig` accepts. */
  predicate IsConnectorName(v: Value) {
    v == VString("REST") || v == VString("Graphql")
  }

  /** `isConfig`: an object with a connector of "REST" or "Graphql", a string
      hostname and an auth that passes `isAuthType`; other fields are not
      looked at. */
  predicate IsConfig(v: Value) {
    IsObject(v) && Has(v, "connector", IsConnectorName) && Has(v, "hostname", IsString) && Has(v, "auth", IsAuthType)
  }

  /** `isConfig` in terms of the fields it reads. */
  lemma IsConfigSpec(v: Value)
    ensures IsConfig(v) <==>
      v.VObject? &&
      Get(v.fields, "connector") in {Some(VString("REST")), Some(VString("Graphql"))} &&
      Get(v.fields, "hostname").Some? && Get(v.fields, "hostname").value.VString? &&
      Get(v.fields, "auth").Some? && Get(v.fields, "auth").value.VString? &&
      Get(v.fields, "auth").value.s in AuthTypes
  {
  }

  /** A configuration without an auth field, or with one that is undefined,
      is refused; the connector match is exact ("rest" is refused). */
  lemma IsConfigNeedsAuth(v: Value)
    requires v.VObject?
    requires Field(v, "auth") == None || Field(v, "auth") == Some(VUndefined) || Field(v, "connector") == Some(VString("rest"))
    ensures !IsConfig(v)
  {
  }

  /** Changing a field other than the four `isConfig` reads does not change its verdict. */
  lemma IsConfigIgnoresOtherFields(v: Value, k: string, x: Value)
    requires v.VObject? && k !in {"connector", "hostname", "auth"}
    ensures IsConfig(SetField(v, k, x)) == IsConfig(v)
  {
    var w := SetField(v, k, x);
    HasSameField(w, v, "connector", IsConnectorName);
    HasSameField(w, v, "hostname", IsString);
    HasSameField(w, v, "auth", IsAuthType);
    assert IsObject(w) && IsObject(v);
  }

  /** `isRestConnectorConfig`. */
  predicate IsRestConnectorConfig(v: Value) {
    IsConfig(v) && Has(v, "connector", x => x == VString("REST"))
  }

  /** `isGraphqlConnectorConfig`. */
  predicate IsGraphqlConnectorConfig(v: Value) {
    IsConfig(v) && Has(v, "connector", x => x == VString("Graphql"))
  }

  /** Every configuration passes exactly one connector guard, or none when
      it fails `isConfig`. */
  lemma ConnectorGuardsPartition(v: Value)
    ensures IsConfig(v) <==> IsRestConnectorConfig(v) || IsGraphqlConnectorConfig(v)
    ensures !(IsRestConnectorConfig(v) && IsGraphqlConnectorConfig(v))
  {
  }

  /** `config.auth ??= d; config.searchParamFormat ??= "delimited"`: each is
      set only when missing, null or undefined; other fields stay. */
  function WithDefaults(config: Value, defaultAuth: Value): (r: Value)
    requires config.VObject?
    ensures r.VObject?
    ensures Field(r, "auth") == if IsNil(FieldOrUndefined(config, "auth")) then Some(defaultAuth) else Field(config, "auth")
    ensures Field(r, "searchParamFormat") ==
      if IsNil(FieldOrUndefined(config, "searchParamFormat")) then Some(VString("delimited")) else Field(config, "searchParamFormat")
    ensures forall k | k != "auth" && k != "searchParamFormat" :: Field(r, k) == Field(config, k)
  {
    var c1 := if IsNil(FieldOrUndefined(config, "auth")) then SetField(config, "auth", defaultAuth) else config;
    if IsNil(FieldOrUndefined(c1, "searchParamFormat")) then SetField(c1, "searchParamFormat", VString("delimited")) else c1
  }
}
