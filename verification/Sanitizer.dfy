/** The two passes that clean the echoed configuration tree before it is published: the provider
    filter and the credential-binding filter. */
module Sanitizer {
  /** A JSON value. Numbers are kept as numerals; object order is not part of the value. */
  datatype Json =
    | Null
    | Bool(b: bool)
    | Number(numeral: string)
    | String(text: string)
    | Array(items: seq<Json>)
    | Object(fields: map<string, Json>)

  const CREDENTIAL := "credential"
  const BROKER_LIMITS := "broker_limits"
  const SCALAR_KEYS := ["protocol", "display_name", "base_url", "allow_insecure_http"]
  const PROVIDER_KEYS := ["protocol", "display_name", "base_url", "allow_insecure_http",
                          "credential", "broker_limits"]
  const CREDENTIAL_KEYS := ["source"]
  const LIMIT_KEYS := [
    "forwarded_requests_per_turn", "denied_requests_before_revocation",
    "concurrent_upstream_requests_per_turn", "json_request_bytes",
    "aggregate_request_bytes_per_turn", "response_bytes_per_request",
    "aggregate_response_bytes_per_turn", "requested_output_tokens_per_request",
    "reserved_token_units_per_turn", "reserved_token_units_per_session",
    "capability_lifetime_ms", "max_reserved_token_units_per_utc_day"]

  predicate Scalar(v: Json) {
    !v.Object? && !v.Array?
  }

  // ---------------------------------------------------------------------------------------------
  // The schema, and what cleaning a value to it means
  // ---------------------------------------------------------------------------------------------

  /** The entries of a block that carry an allowed key and a scalar. */
  function CleanBlock(block: map<string, Json>, allowed: seq<string>): map<string, Json> {
    map k | k in block && k in allowed && Scalar(block[k]) :: block[k]
  }

  function BlockKeys(key: string): seq<string> {
    if key == CREDENTIAL then CREDENTIAL_KEYS
    else if key == BROKER_LIMITS then LIMIT_KEYS
    else []
  }

  /** Whether one entry of a provider survives. */
  predicate Survives(key: string, v: Json) {
    (key in SCALAR_KEYS && Scalar(v)) || (key in [CREDENTIAL, BROKER_LIMITS] && v.Object?)
  }

  function CleanEntry(key: string, v: Json): Json {
    if v.Object? then Object(CleanBlock(v.fields, BlockKeys(key))) else v
  }

  function CleanProvider(provider: map<string, Json>): map<string, Json> {
    map k | k in provider && Survives(k, provider[k]) :: CleanEntry(k, provider[k])
  }

  function CleanProviders(providers: map<string, Json>): map<string, Json> {
    map id | id in providers && providers[id].Object? :: Object(CleanProvider(providers[id].fields))
  }

  /** An object with its `providers` mapping, if it has one, cleaned. */
  function CleanHolder(v: Json): Json {
    if v.Object? && "providers" in v.fields && v.fields["providers"].Object? then
      Object(v.fields["providers" := Object(CleanProviders(v.fields["providers"].fields))])
    else v
  }

  function CleanEach(items: seq<Json>): (out: seq<Json>)
    ensures |out| == |items|
  {
    seq(|items|, i requires 0 <= i < |items| => CleanHolder(items[i]))
  }

  /** The whole tree with its own and its projects' `providers` mappings cleaned. */
  function CleanRoot(root: Json): Json {
    var r := CleanHolder(root);
    if r.Object? && "projects" in r.fields && r.fields["projects"].Array? then
      Object(r.fields["projects" := Array(CleanEach(r.fields["projects"].items))])
    else r
  }

  /** Credential ids: 1 to 64 characters, a lowercase letter first, then lowercase letters, digits,
      `_` and `-`, and not starting like a service-account token. */
  predicate CanonicalId(id: string) {
    && !("ops_" <= id)
    && 1 <= |id| <= 64
    && 'a' <= id[0] <= 'z'
    && forall i :: 1 <= i < |id| ==>
         'a' <= id[i] <= 'z' || '0' <= id[i] <= '9' || id[i] == '_' || id[i] == '-'
  }

  predicate IsBinding(v: Json) {
    v.String? && CanonicalId(v.text)
  }

  function DropBinding(project: Json): Json {
    if project.Object? && !("onepassword" in project.fields && IsBinding(project.fields["onepassword"]))
    then Object(project.fields - {"onepassword"})
    else project
  }

  function DropEach(items: seq<Json>): (out: seq<Json>)
    ensures |out| == |items|
  {
    seq(|items|, i requires 0 <= i < |items| => DropBinding(items[i]))
  }

  function DropBindings(root: Json): Json {
    if root.Object? && "projects" in root.fields && root.fields["projects"].Array? then
      Object(root.fields["projects" := Array(DropEach(root.fields["projects"].items))])
    else root
  }

  // ---------------------------------------------------------------------------------------------
  // The passes as they edit the tree
  // ---------------------------------------------------------------------------------------------

  method RemoveAll(obj: map<string, Json>, keys: set<string>) returns (out: map<string, Json>)
    ensures out == obj - keys
  {
    out := obj;
    var left := keys;
    while left != {}
      invariant left <= keys && out == obj - (keys - left)
      decreases left
    {
      var k :| k in left;
      out := out - {k};
      left := left - {k};
    }
  }

  method RetainKeys(obj: map<string, Json>, allowed: seq<string>) returns (out: map<string, Json>)
    ensures out == map k | k in obj && k in allowed :: obj[k]
  {
    out := RemoveAll(obj, set k | k in obj && k !in allowed);
  }

  method DropNonScalars(obj: map<string, Json>, keys: seq<string>) returns (out: map<string, Json>)
    ensures out == map k | k in obj && (k in keys ==> !obj[k].Object? && !obj[k].Array?) :: obj[k]
  {
    out := RemoveAll(obj, set k | k in obj && k in keys && !Scalar(obj[k]));
  }

  /** What one nested-block step leaves. */
  function Nested(obj: map<string, Json>, key: string, allowed: seq<string>): map<string, Json> {
    if key !in obj then obj
    else if obj[key].Object? then obj[key := Object(CleanBlock(obj[key].fields, allowed))]
    else obj - {key}
  }

  method SanitizeNestedBlock(obj: map<string, Json>, key: string, allowed: seq<string>)
    returns (out: map<string, Json>)
    ensures out == Nested(obj, key, allowed)
  {
    out := obj;
    if key in obj {
      if obj[key].Object? {
        var sub := RetainKeys(obj[key].fields, allowed);
        sub := DropNonScalars(sub, allowed);
        assert sub == CleanBlock(obj[key].fields, allowed);
        out := obj[key := Object(sub)];
      } else {
        out := obj - {key};
      }
    }
  }

  lemma KeysPartition(k: string)
    ensures k in PROVIDER_KEYS <==> k in SCALAR_KEYS || k == CREDENTIAL || k == BROKER_LIMITS
    ensures k in SCALAR_KEYS ==> k != CREDENTIAL && k != BROKER_LIMITS
    ensures CREDENTIAL != BROKER_LIMITS
  {
  }

  /** Filtering keys, then shapes, then the two blocks in turn cleans the provider. */
  lemma StagesCompose(def: map<string, Json>, obj: map<string, Json>)
    requires forall k :: k in obj <==>
               k in def && k in PROVIDER_KEYS && (k in SCALAR_KEYS ==> Scalar(def[k]))
    requires forall k :: k in obj ==> obj[k] == def[k]
    ensures Nested(Nested(obj, CREDENTIAL, CREDENTIAL_KEYS), BROKER_LIMITS, LIMIT_KEYS)
            == CleanProvider(def)
  {
    var c, b := CREDENTIAL, BROKER_LIMITS;
    var out, clean := Nested(Nested(obj, c, CREDENTIAL_KEYS), b, LIMIT_KEYS), CleanProvider(def);
    forall k ensures (k in out <==> k in clean) && (k in out ==> out[k] == clean[k]) {
      KeysPartition(k);
    }
  }

  method SanitizeOneProvider(def: Json) returns (out: Json)
    ensures out == if def.Object? then Object(CleanProvider(def.fields)) else def
  {
    if !def.Object? {
      return def;
    }
    var obj := RetainKeys(def.fields, PROVIDER_KEYS);
    obj := DropNonScalars(obj, SCALAR_KEYS);
    StagesCompose(def.fields, obj);
    obj := SanitizeNestedBlock(obj, CREDENTIAL, CREDENTIAL_KEYS);
    obj := SanitizeNestedBlock(obj, BROKER_LIMITS, LIMIT_KEYS);
    out := Object(obj);
  }

  method SanitizeProviderMap(providers: map<string, Json>) returns (out: map<string, Json>)
    ensures out == CleanProviders(providers)
  {
    out := RemoveAll(providers, set k | k in providers && !providers[k].Object?);
    var left := out.Keys;
    while left != {}
      invariant left <= out.Keys == CleanProviders(providers).Keys
      invariant forall k :: k in out ==>
                  out[k] == if k in left then providers[k] else CleanProviders(providers)[k]
      decreases left
    {
      var k :| k in left;
      var def := SanitizeOneProvider(out[k]);
      out := out[k := def];
      left := left - {k};
    }
  }

  method SanitizeHolder(v: Json) returns (out: Json)
    ensures out == CleanHolder(v)
  {
    out := v;
    if v.Object? && "providers" in v.fields && v.fields["providers"].Object? {
      var providers := SanitizeProviderMap(v.fields["providers"].fields);
      out := Object(v.fields["providers" := Object(providers)]);
    }
  }

  method SanitizeProviderBlocks(root: Json) returns (out: Json)
    ensures out == CleanRoot(root)
  {
    out := SanitizeHolder(root);
    if out.Object? && "projects" in out.fields && out.fields["projects"].Array? {
      var before := out.fields["projects"].items;
      var projects := before;
      for i := 0 to |projects|
        invariant |projects| == |before|
        invariant projects == CleanEach(before)[..i] + before[i..]
      {
        var project := SanitizeHolder(projects[i]);
        projects := projects[i := project];
      }
      assert projects == CleanEach(before);
      out := Object(out.fields["projects" := Array(projects)]);
    }
  }

  method DropOneBinding(project: Json) returns (out: Json)
    ensures out == DropBinding(project)
  {
    out := project;
    if project.Object? {
      var keep := "onepassword" in project.fields && IsBinding(project.fields["onepassword"]);
      if !keep {
        out := Object(project.fields - {"onepassword"});
      }
    }
  }

  method SanitizeOnepasswordBindings(root: Json) returns (out: Json)
    ensures out == DropBindings(root)
  {
    out := root;
    if root.Object? && "projects" in root.fields && root.fields["projects"].Array? {
      var before := root.fields["projects"].items;
      var projects := before;
      for i := 0 to |projects|
        invariant |projects| == |before|
        invariant projects == DropEach(before)[..i] + before[i..]
      {
        var project := DropOneBinding(projects[i]);
        projects := projects[i := project];
      }
      assert projects == DropEach(before);
      out := Object(root.fields["projects" := Array(projects)]);
    }
  }
}
