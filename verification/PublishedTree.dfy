/** The published provider blocks, place by place: what stands at every path below a block that the
    filter visits, in terms of the tree handed in and the key names of the schema. */
module PublishedTree {
  import opened Common
  import opened Sanitizer
  import opened SanitizerTheorems

  predicate IsLeaf(v: Option<Json>) {
    v.Some? && (v.value.String? || v.value.Number? || v.value.Bool? || v.value.Null?)
  }

  predicate IsObject(v: Option<Json>) {
    v.Some? && v.value.Object?
  }

  predicate IsArray(v: Option<Json>) {
    v.Some? && v.value.Array?
  }

  /** The places below a block where the schema has a mapping: the block, a provider, its two sub-blocks. */
  predicate MappingPlace(rest: seq<Step>) {
    || rest == []
    || (|rest| == 1 && rest[0].Key?)
    || (|rest| == 2 && rest[0].Key? && (rest[1] == Key("credential") || rest[1] == Key("broker_limits")))
  }

  predicate LimitName(key: string) {
    key in {"forwarded_requests_per_turn", "denied_requests_before_revocation",
            "concurrent_upstream_requests_per_turn", "json_request_bytes",
            "aggregate_request_bytes_per_turn", "response_bytes_per_request",
            "aggregate_response_bytes_per_turn", "requested_output_tokens_per_request",
            "reserved_token_units_per_turn", "reserved_token_units_per_session",
            "capability_lifetime_ms", "max_reserved_token_units_per_utc_day"}
  }

  predicate SettingName(key: string) {
    key in {"protocol", "display_name", "base_url", "allow_insecure_http"}
  }

  /** The places where the schema has a scalar: a setting of a provider, the source of its credential, one
      of its limits. */
  predicate LeafPlace(rest: seq<Step>) {
    || (|rest| == 2 && rest[0].Key? && rest[1].Key? && SettingName(rest[1].name))
    || (|rest| == 3 && rest[0].Key? && rest[1] == Key("credential") && rest[2] == Key("source"))
    || (|rest| == 3 && rest[0].Key? && rest[1] == Key("broker_limits") && rest[2].Key? && LimitName(rest[2].name))
  }

  /** `after` is what may be published of `before` at a place: a mapping where mappings belong, a scalar
      where scalars belong, unchanged, and nothing else. */
  predicate Published(before: Option<Json>, after: Option<Json>, mapping: bool, leaf: bool) {
    && !IsArray(after)
    && (IsObject(after) <==> IsObject(before) && mapping)
    && (IsLeaf(after) <==> IsLeaf(before) && leaf)
    && (IsLeaf(after) ==> after == before)
  }

  lemma NamesAreTheSchemas(key: string)
    ensures key in SCALAR_KEYS <==> SettingName(key)
    ensures key in BlockKeys("credential") <==> key == "source"
    ensures key in BlockKeys("broker_limits") <==> LimitName(key)
    ensures key in [CREDENTIAL, BROKER_LIMITS] <==> key == "credential" || key == "broker_limits"
    ensures "credential" != "broker_limits" && !SettingName("credential") && !SettingName("broker_limits")
  {
    KeysPartition(key);
    KeysPartition("credential");
    KeysPartition("broker_limits");
  }

  /** Below a scalar there is nothing. */
  lemma NothingBelowALeaf(v: Json, rest: seq<Step>)
    requires IsLeaf(Some(v))
    ensures Lookup(v, rest) == if rest == [] then Some(v) else None
  {
  }

  lemma BlockPlaces(block: map<string, Json>, allowed: seq<string>, rest: seq<Step>)
    ensures Published(Lookup(Object(block), rest), Lookup(Object(CleanBlock(block, allowed)), rest),
                      rest == [], |rest| == 1 && rest[0].Key? && rest[0].name in allowed)
  {
    if rest != [] && rest[0].Key? && rest[0].name in block {
      var v := block[rest[0].name];
      if IsLeaf(Some(v)) {
        NothingBelowALeaf(v, rest[1..]);
      }
    }
  }

  lemma EntryPlaces(key: string, v: Json, rest: seq<Step>)
    ensures Published(Lookup(v, rest), if Survives(key, v) then Lookup(CleanEntry(key, v), rest) else None,
                      key in [CREDENTIAL, BROKER_LIMITS] && rest == [],
                      if rest == [] then key in SCALAR_KEYS
                      else key in [CREDENTIAL, BROKER_LIMITS] && |rest| == 1 && rest[0].Key?
                           && rest[0].name in BlockKeys(key))
  {
    KeysPartition(key);
    if v.Object? {
      BlockPlaces(v.fields, BlockKeys(key), rest);
    } else if IsLeaf(Some(v)) {
      NothingBelowALeaf(v, rest);
    }
  }

  /** A place below a provider, in the schema's own names. */
  lemma ProviderPlaces(provider: map<string, Json>, id: string, rest: seq<Step>)
    ensures Published(Lookup(Object(provider), rest), Lookup(Object(CleanProvider(provider)), rest),
                      MappingPlace([Key(id)] + rest), LeafPlace([Key(id)] + rest))
  {
    if rest != [] && rest[0].Key? {
      var key := rest[0].name;
      NamesAreTheSchemas(key);
      assert ([Key(id)] + rest)[1..] == rest;
      if |rest| == 2 && rest[1].Key? {
        NamesAreTheSchemas(rest[1].name);
      }
      if key in provider {
        EntryPlaces(key, provider[key], rest[1..]);
      }
    }
  }

  lemma MappingPlaces(providers: map<string, Json>, rest: seq<Step>)
    ensures Published(Lookup(Object(providers), rest), Lookup(Object(CleanProviders(providers)), rest),
                      MappingPlace(rest), LeafPlace(rest))
  {
    if rest != [] && rest[0].Key? && rest[0].name in providers {
      var id := rest[0].name;
      assert rest == [Key(id)] + rest[1..];
      if providers[id].Object? {
        ProviderPlaces(providers[id].fields, id, rest[1..]);
      } else if IsLeaf(Some(providers[id])) {
        NothingBelowALeaf(providers[id], rest[1..]);
      }
    }
  }

  // ---------------------------------------------------------------------------------------------
  // Whole trees
  // ---------------------------------------------------------------------------------------------

  /** What a client is sent: both passes in turn. */
  function Publish(root: Json): Json {
    DropBindings(CleanRoot(root))
  }

  /** The path of the shared `providers` block, or of a listed project's. */
  predicate IsBlockPath(block: seq<Step>) {
    block == [Key("providers")]
    || (|block| == 3 && block[0] == Key("projects") && block[1].Index? && block[2] == Key("providers"))
  }

  lemma {:induction false} LookupConcat(v: Json, a: seq<Step>, b: seq<Step>)
    ensures Lookup(v, a + b) == if Lookup(v, a).Some? then Lookup(Lookup(v, a).value, b) else None
    decreases |a|
  {
    if a == [] {
      assert a + b == b;
    } else {
      assert (a + b)[0] == a[0] && (a + b)[1..] == a[1..] + b;
      if a[0].Key? && v.Object? && a[0].name in v.fields {
        LookupConcat(v.fields[a[0].name], a[1..], b);
      } else if a[0].Index? && v.Array? && a[0].at < |v.items| {
        LookupConcat(v.items[a[0].at], a[1..], b);
      }
    }
  }

  /** A visited block is replaced by its cleaned form when it is a mapping, and left as it is otherwise. */
  lemma BlockCleaned(root: Json, block: seq<Step>)
    requires IsBlockPath(block)
    ensures var before := Lookup(root, block);
            Lookup(CleanRoot(root), block)
            == if IsObject(before) then Some(Object(CleanProviders(before.value.fields))) else before
  {
    if |block| == 1 {
      OwnEntryAt(root, "providers");
      OwnEntryAt(CleanRoot(root), "providers");
      RootBlockIsHolders(root);
    } else {
      EntryAt(root, block, "providers");
      EntryAt(CleanRoot(root), block, "providers");
      ProjectsOfClean(root);
    }
  }

  /** The binding pass does not go below a visited block. */
  lemma BindingsLeaveBlocks(root: Json, block: seq<Step>, rest: seq<Step>)
    requires IsBlockPath(block)
    ensures Lookup(DropBindings(root), block + rest) == Lookup(root, block + rest)
  {
    var path := block + rest;
    assert |block| == 3 ==> path[0] == block[0] && path[1] == block[1] && path[2] == block[2];
    assert |block| == 1 ==> path[0] == block[0];
    assert "providers" != "projects" by { assert "providers"[3] != "projects"[3]; }
    assert "providers" != "onepassword" by { assert "providers"[0] != "onepassword"[0]; }
    DropFrame(root, path);
  }

  /** For every tree and every place below the shared block, or a listed project's, that is a mapping: no
      list is published there; a mapping only as the block itself, a provider, or its `credential` or
      `broker_limits`; a scalar only under a name of the schema, unchanged; and each of these whenever it
      was there. A block that is not a mapping is published as it stands. */
  lemma BlocksPublishedPlaceByPlace(root: Json, block: seq<Step>, rest: seq<Step>)
    requires IsBlockPath(block)
    ensures var before, after := Lookup(root, block + rest), Lookup(Publish(root), block + rest);
            if IsObject(Lookup(root, block)) then Published(before, after, MappingPlace(rest), LeafPlace(rest))
            else after == before
  {
    BindingsLeaveBlocks(CleanRoot(root), block, rest);
    LookupConcat(root, block, rest);
    LookupConcat(CleanRoot(root), block, rest);
    BlockCleaned(root, block);
    if IsObject(Lookup(root, block)) {
      MappingPlaces(Lookup(root, block).value.fields, rest);
    }
  }

  // ---------------------------------------------------------------------------------------------
  // Bindings
  // ---------------------------------------------------------------------------------------------

  predicate IdCharacter(c: char) {
    'a' <= c <= 'z' || '0' <= c <= '9' || c in {'_', '-'}
  }

  /** At most 64 lowercase letters, digits, `_` and `-`, a letter first, and no service-account token. */
  predicate IsCredentialId(text: string) {
    && 0 < |text| <= 64 && 'a' <= text[0] <= 'z' && (forall c :: c in text ==> IdCharacter(c))
    && !(|text| >= 4 && text[0] == 'o' && text[1] == 'p' && text[2] == 's' && text[3] == '_')
  }

  lemma TokenPrefixIs(text: string)
    ensures "ops_" <= text <==>
              |text| >= 4 && text[0] == 'o' && text[1] == 'p' && text[2] == 's' && text[3] == '_'
  {
  }

  lemma CanonicalIdsAre(text: string)
    ensures CanonicalId(text) <==> IsCredentialId(text)
  {
    TokenPrefixIs(text);
    if CanonicalId(text) {
      forall c | c in text ensures IdCharacter(c) {
        var i :| 0 <= i < |text| && text[i] == c;
      }
    }
    if IsCredentialId(text) {
      forall i | 1 <= i < |text| ensures IdCharacter(text[i]) {
        assert text[i] in text;
      }
    }
  }

  /** What a listed project publishes as its binding, for every tree: the configured credential id, or
      nothing. */
  lemma BindingsPublished(root: Json, at: nat)
    ensures var path := [Key("projects"), Index(at), Key("onepassword")];
            var before := Lookup(root, path);
            Lookup(Publish(root), path)
            == if before.Some? && before.value.String? && IsCredentialId(before.value.text) then before else None
  {
    var path := [Key("projects"), Index(at), Key("onepassword")];
    assert "providers" != "projects" by { assert "providers"[3] != "projects"[3]; }
    assert "providers" != "onepassword" by { assert "providers"[0] != "onepassword"[0]; }
    assert "onepassword" != "projects" by { assert "onepassword"[0] != "projects"[0]; }
    CleanFrame(root, path);
    BindingPublishedExactly(CleanRoot(root), path);
    var before := Lookup(root, path);
    if before.Some? && before.value.String? {
      CanonicalIdsAre(before.value.text);
    }
  }
}
