/** The laws of the two cleaning passes: what they publish is the largest part of the tree that fits
    the provider schema, it depends on nothing outside the schema, and the rest is left alone. */
module SanitizerTheorems {
  import opened Common
  import opened Sanitizer

  // ---------------------------------------------------------------------------------------------
  // Schema shape and pruning
  // ---------------------------------------------------------------------------------------------

  predicate BlockInSchema(v: Json, allowed: seq<string>) {
    v.Object? && forall k :: k in v.fields ==> k in allowed && Scalar(v.fields[k])
  }

  predicate EntryInSchema(key: string, v: Json) {
    || (key in SCALAR_KEYS && Scalar(v))
    || (key in [CREDENTIAL, BROKER_LIMITS] && BlockInSchema(v, BlockKeys(key)))
  }

  predicate ProviderInSchema(v: Json) {
    v.Object? && forall k :: k in v.fields ==> EntryInSchema(k, v.fields[k])
  }

  predicate ProvidersInSchema(v: Json) {
    v.Object? && forall id :: id in v.fields ==> ProviderInSchema(v.fields[id])
  }

  /** `a` is `b` with object entries deleted, at any depth. */
  ghost predicate Prunes(a: Json, b: Json) {
    || a == b
    || (a.Object? && b.Object?
        && forall k :: k in a.fields ==> k in b.fields && Prunes(a.fields[k], b.fields[k]))
  }

  lemma BlockIsGreatest(block: map<string, Json>, allowed: seq<string>, y: Json)
    ensures BlockInSchema(Object(CleanBlock(block, allowed)), allowed)
    ensures Prunes(Object(CleanBlock(block, allowed)), Object(block))
    ensures BlockInSchema(y, allowed) && Prunes(y, Object(block))
            ==> Prunes(y, Object(CleanBlock(block, allowed)))
  {
    if BlockInSchema(y, allowed) && Prunes(y, Object(block)) {
      forall k | k in y.fields
        ensures k in CleanBlock(block, allowed) && Prunes(y.fields[k], CleanBlock(block, allowed)[k])
      {
        assert y == Object(block) || Prunes(y.fields[k], block[k]);
      }
    }
  }

  lemma EntryIsGreatest(key: string, v: Json, y: Json)
    ensures Survives(key, v) ==> EntryInSchema(key, CleanEntry(key, v)) && Prunes(CleanEntry(key, v), v)
    ensures EntryInSchema(key, y) && Prunes(y, v) ==> Survives(key, v) && Prunes(y, CleanEntry(key, v))
  {
    KeysPartition(key);
    if v.Object? {
      BlockIsGreatest(v.fields, BlockKeys(key), y);
    }
  }

  lemma ProviderIsGreatest(v: Json, y: Json)
    requires v.Object?
    ensures ProviderInSchema(Object(CleanProvider(v.fields)))
    ensures Prunes(Object(CleanProvider(v.fields)), v)
    ensures ProviderInSchema(y) && Prunes(y, v) ==> Prunes(y, Object(CleanProvider(v.fields)))
  {
    var clean := CleanProvider(v.fields);
    forall k | k in clean ensures EntryInSchema(k, clean[k]) && Prunes(clean[k], v.fields[k]) {
      EntryIsGreatest(k, v.fields[k], Null);
    }
    if ProviderInSchema(y) && Prunes(y, v) {
      forall k | k in y.fields ensures k in clean && Prunes(y.fields[k], clean[k]) {
        assert y == v || Prunes(y.fields[k], v.fields[k]);
        EntryIsGreatest(k, v.fields[k], y.fields[k]);
      }
    }
  }

  /** Of all prunings of a `providers` mapping that fit the schema, the filter keeps the greatest:
      nothing outside the schema gets through and nothing inside it is lost. */
  lemma CleanIsGreatestSchemaPruning(v: Json, y: Json)
    requires v.Object?
    ensures ProvidersInSchema(Object(CleanProviders(v.fields)))
    ensures Prunes(Object(CleanProviders(v.fields)), v)
    ensures ProvidersInSchema(y) && Prunes(y, v) ==> Prunes(y, Object(CleanProviders(v.fields)))
  {
    var clean := CleanProviders(v.fields);
    forall id | id in clean ensures ProviderInSchema(clean[id]) && Prunes(clean[id], v.fields[id]) {
      ProviderIsGreatest(v.fields[id], Null);
    }
    if ProvidersInSchema(y) && Prunes(y, v) {
      forall id | id in y.fields ensures id in clean && Prunes(y.fields[id], clean[id]) {
        assert y == v || Prunes(y.fields[id], v.fields[id]);
        assert ProviderInSchema(y.fields[id]);
        ProviderIsGreatest(v.fields[id], y.fields[id]);
      }
    }
  }

  // ---------------------------------------------------------------------------------------------
  // Fixpoints, idempotence, commutation
  // ---------------------------------------------------------------------------------------------

  lemma SchemaProvidersAreFixed(v: Json)
    requires ProvidersInSchema(v)
    ensures CleanProviders(v.fields) == v.fields
  {
    forall id | id in v.fields ensures Object(CleanProvider(v.fields[id].fields)) == v.fields[id] {
      var provider := v.fields[id].fields;
      assert ProviderInSchema(v.fields[id]);
      forall k | k in provider ensures Survives(k, provider[k]) && CleanEntry(k, provider[k]) == provider[k] {
        assert EntryInSchema(k, provider[k]);
        if provider[k].Object? {
          assert CleanBlock(provider[k].fields, BlockKeys(k)) == provider[k].fields;
        }
      }
      assert CleanProvider(provider) == provider;
    }
  }

  ghost predicate HolderInSchema(v: Json) {
    v.Object? && "providers" in v.fields ==> ProvidersInSchema(v.fields["providers"])
  }

  ghost predicate HoldsMapping(v: Json) {
    v.Object? && "providers" in v.fields ==> v.fields["providers"].Object?
  }

  function Fields(v: Json): map<string, Json> {
    if v.Object? then v.fields else map[]
  }

  /** The projects of a tree, none when there is no such list. */
  function Projects(root: Json): seq<Json> {
    if root.Object? && "projects" in root.fields && root.fields["projects"].Array?
    then root.fields["projects"].items else []
  }

  /** The `providers` blocks that the filter visits fit the schema. */
  ghost predicate VisitedInSchema(root: Json) {
    HolderInSchema(root) && forall i :: 0 <= i < |Projects(root)| ==> HolderInSchema(Projects(root)[i])
  }

  lemma HolderLaws(v: Json)
    ensures HolderInSchema(v) ==> CleanHolder(v) == v
    ensures HolderInSchema(CleanHolder(v)) <==> HoldsMapping(v)
    ensures CleanHolder(CleanHolder(v)) == CleanHolder(v)
  {
    if v.Object? && "providers" in v.fields && v.fields["providers"].Object? {
      CleanIsGreatestSchemaPruning(v.fields["providers"], Null);
      SchemaProvidersAreFixed(Object(CleanProviders(v.fields["providers"].fields)));
      if HolderInSchema(v) {
        SchemaProvidersAreFixed(v.fields["providers"]);
        assert CleanHolder(v).fields == v.fields;
      }
      assert CleanHolder(CleanHolder(v)).fields == CleanHolder(v).fields;
    }
  }

  lemma ProjectsOfClean(root: Json)
    ensures Projects(CleanRoot(root)) == CleanEach(Projects(root))
    ensures HolderInSchema(CleanRoot(root)) <==> HolderInSchema(CleanHolder(root))
  {
  }

  /** A tree already in schema shape is left as it is. */
  lemma SchemaTreesAreFixed(root: Json)
    requires VisitedInSchema(root)
    ensures CleanRoot(root) == root
  {
    HolderLaws(root);
    forall i | 0 <= i < |Projects(root)| ensures CleanHolder(Projects(root)[i]) == Projects(root)[i] {
      HolderLaws(Projects(root)[i]);
    }
    assert CleanEach(Projects(root)) == Projects(root);
    assert Fields(CleanRoot(root)) == Fields(root);
  }

  lemma CleanIsIdempotent(root: Json)
    ensures CleanRoot(CleanRoot(root)) == CleanRoot(root)
  {
    var once := CleanRoot(root);
    HolderLaws(root);
    ProjectsOfClean(root);
    forall i | 0 <= i < |Projects(root)|
      ensures CleanHolder(CleanHolder(Projects(root)[i])) == CleanHolder(Projects(root)[i])
    {
      HolderLaws(Projects(root)[i]);
    }
    assert CleanEach(CleanEach(Projects(root))) == CleanEach(Projects(root));
    HolderIgnoresProjects(root);
    assert Fields(CleanRoot(once)) == Fields(once);
  }

  lemma HolderIgnoresProjects(root: Json)
    ensures CleanHolder(CleanRoot(root)) == CleanRoot(root)
  {
    HolderLaws(root);
    var h, r := CleanHolder(root), CleanRoot(root);
    if r.Object? && "providers" in r.fields && r.fields["providers"].Object? {
      assert "providers" != "projects" by { assert "providers"[3] != "projects"[3]; }
      assert CleanHolder(h).fields["providers"] == h.fields["providers"];
      assert CleanHolder(r).fields == r.fields;
    }
  }

  lemma DropOnce(project: Json)
    ensures DropBinding(DropBinding(project)) == DropBinding(project)
  {
  }

  lemma DropIsIdempotent(root: Json)
    ensures DropBindings(DropBindings(root)) == DropBindings(root)
  {
    var once := DropBindings(root);
    assert Projects(once) == DropEach(Projects(root));
    forall i | 0 <= i < |Projects(root)|
      ensures DropBinding(DropBinding(Projects(root)[i])) == DropBinding(Projects(root)[i])
    {
      DropOnce(Projects(root)[i]);
    }
    assert DropEach(DropEach(Projects(root))) == DropEach(Projects(root));
    assert Fields(DropBindings(once)) == Fields(once);
  }

  lemma ProjectPassesCommute(project: Json)
    ensures CleanHolder(DropBinding(project)) == DropBinding(CleanHolder(project))
  {
  }

  /** The two passes may run in either order. */
  lemma PassesCommute(root: Json)
    ensures CleanRoot(DropBindings(root)) == DropBindings(CleanRoot(root))
  {
    assert "providers" != "projects" by { assert "providers"[3] != "projects"[3]; }
    var items := Projects(root);
    forall i | 0 <= i < |items|
      ensures CleanHolder(DropBinding(items[i])) == DropBinding(CleanHolder(items[i]))
    {
      ProjectPassesCommute(items[i]);
    }
    assert CleanEach(DropEach(items)) == DropEach(CleanEach(items));
    var a, b := CleanRoot(DropBindings(root)), DropBindings(CleanRoot(root));
    assert Fields(a) == Fields(b);
  }

  // ---------------------------------------------------------------------------------------------
  // Framing
  // ---------------------------------------------------------------------------------------------

  datatype Step = Key(name: string) | Index(at: nat)

  /** The value at a path, if the tree has one there. */
  function Lookup(v: Json, path: seq<Step>): Option<Json> {
    if path == [] then Some(v)
    else match path[0]
      case Key(name) =>
        if v.Object? && name in v.fields then Lookup(v.fields[name], path[1..]) else None
      case Index(at) =>
        if v.Array? && at < |v.items| then Lookup(v.items[at], path[1..]) else None
  }

  /** The path of one entry of one listed project. */
  predicate InListedProject(path: seq<Step>, key: string) {
    |path| > 2 && path[0] == Key("projects") && path[1].Index? && path[2] == Key(key)
  }

  /** Paths that stop above the listed projects' entries. */
  predicate AboveProjects(path: seq<Step>) {
    path == [] || (path[0] == Key("projects") && (|path| == 1 || (|path| == 2 && path[1].Index?)))
  }

  lemma LookupProjects(root: Json, path: seq<Step>)
    requires |path| >= 2 && path[0] == Key("projects") && path[1].Index?
    requires root.Object? && "projects" in root.fields && root.fields["projects"].Array?
    ensures Lookup(root, path) == if path[1].at < |Projects(root)|
                                  then Lookup(Projects(root)[path[1].at], path[2..]) else None
  {
    assert path[1..][0] == path[1] && path[1..][1..] == path[2..];
  }

  lemma CleanFrame(root: Json, path: seq<Step>)
    requires !AboveProjects(path) && path[0] != Key("providers") && !InListedProject(path, "providers")
    ensures Lookup(CleanRoot(root), path) == Lookup(root, path)
  {
    assert "providers" != "projects" by { assert "providers"[3] != "projects"[3]; }
    if path[0] == Key("projects") && Projects(root) != [] && path[1].Index? {
      LookupProjects(root, path);
      LookupProjects(CleanRoot(root), path);
    }
  }

  lemma DropFrame(root: Json, path: seq<Step>)
    requires !AboveProjects(path) && !InListedProject(path, "onepassword")
    ensures Lookup(DropBindings(root), path) == Lookup(root, path)
  {
    if path[0] == Key("projects") && Projects(root) != [] && path[1].Index? {
      LookupProjects(root, path);
      LookupProjects(DropBindings(root), path);
    }
  }

  /** Everything outside the entries a pass governs is published exactly as configured, at every depth. */
  lemma EverythingElseIsUntouched(root: Json, path: seq<Step>)
    requires !AboveProjects(path)
    ensures path[0] != Key("providers") && !InListedProject(path, "providers") ==>
              Lookup(CleanRoot(root), path) == Lookup(root, path)
    ensures !InListedProject(path, "onepassword") ==> Lookup(DropBindings(root), path) == Lookup(root, path)
  {
    if path[0] != Key("providers") && !InListedProject(path, "providers") {
      CleanFrame(root, path);
    }
    if !InListedProject(path, "onepassword") {
      DropFrame(root, path);
    }
  }

  // ---------------------------------------------------------------------------------------------
  // Which entries the passes see
  // ---------------------------------------------------------------------------------------------

  /** An entry named `key`, at any depth, that is not inside another of that name. */
  predicate EntryPath(path: seq<Step>, key: string) {
    |path| > 0 && path[|path| - 1] == Key(key) && forall i :: 0 <= i < |path| - 1 ==> path[i] != Key(key)
  }

  /** A block fits the schema, or there is none. */
  predicate FitsSchema(block: Option<Json>) {
    block.Some? ==> ProvidersInSchema(block.value)
  }

  predicate IsMapping(block: Option<Json>) {
    block.Some? ==> block.value.Object?
  }

  lemma OwnEntryAt(v: Json, key: string)
    ensures Lookup(v, [Key(key)]) == if key in Fields(v) then Some(Fields(v)[key]) else None
  {
    assert [Key(key)][1..] == [];
  }

  lemma EntryAt(root: Json, path: seq<Step>, key: string)
    requires |path| == 3 && InListedProject(path, key)
    ensures Lookup(root, path) ==
              if path[1].at < |Projects(root)| && key in Fields(Projects(root)[path[1].at])
              then Some(Fields(Projects(root)[path[1].at])[key]) else None
  {
    assert path[1..][0] == path[1] && path[2..] == [Key(key)];
    if root.Object? && "projects" in root.fields && root.fields["projects"].Array? {
      LookupProjects(root, path);
      if path[1].at < |Projects(root)| {
        OwnEntryAt(Projects(root)[path[1].at], key);
      }
    }
  }

  lemma HolderBlock(v: Json)
    ensures var before, after := Fields(v), Fields(CleanHolder(v));
            && ("providers" in before <==> "providers" in after)
            && ("providers" in before ==> (ProvidersInSchema(after["providers"]) <==> before["providers"].Object?))
  {
    HolderLaws(v);
  }

  /** Wherever a `providers` block stands in the tree, it is published in schema shape exactly when: it is
      the shared one or a listed project's, and a mapping; or it stands anywhere else, and was in schema
      shape already, since the filter does not go there. */
  lemma BlockPublishedExactly(root: Json, path: seq<Step>)
    requires EntryPath(path, "providers")
    ensures FitsSchema(Lookup(CleanRoot(root), path)) <==>
              if |path| == 1 || InListedProject(path, "providers") then IsMapping(Lookup(root, path))
              else FitsSchema(Lookup(root, path))
  {
    if |path| == 1 {
      assert path == [Key("providers")];
      OwnEntryAt(root, "providers");
      OwnEntryAt(CleanRoot(root), "providers");
      HolderBlock(root);
      RootBlockIsHolders(root);
    } else if InListedProject(path, "providers") {
      assert |path| == 3;
      EntryAt(root, path, "providers");
      EntryAt(CleanRoot(root), path, "providers");
      ProjectsOfClean(root);
      if path[1].at < |Projects(root)| {
        HolderBlock(Projects(root)[path[1].at]);
      }
    } else {
      assert path[0] != Key("providers");
      CleanFrame(root, path);
    }
  }

  lemma RootBlockIsHolders(root: Json)
    ensures var a, b := Fields(CleanRoot(root)), Fields(CleanHolder(root));
            ("providers" in a <==> "providers" in b) && ("providers" in a ==> a["providers"] == b["providers"])
  {
    assert "providers" != "projects" by { assert "providers"[3] != "projects"[3]; }
  }

  /** Wherever a credential binding stands, it is published as configured, except that a listed project
      publishes only a canonical id. */
  lemma BindingPublishedExactly(root: Json, path: seq<Step>)
    requires EntryPath(path, "onepassword")
    ensures var binding := Lookup(root, path);
            Lookup(DropBindings(root), path)
            == if InListedProject(path, "onepassword") && binding.Some? && !IsBinding(binding.value)
               then None else binding
  {
    if InListedProject(path, "onepassword") {
      assert |path| == 3;
      EntryAt(root, path, "onepassword");
      EntryAt(DropBindings(root), path, "onepassword");
      assert Projects(DropBindings(root)) == DropEach(Projects(root));
    } else {
      assert |path| == 2 && path[0] == Key("projects") ==> !path[1].Index?;
      DropFrame(root, path);
    }
  }

  /** A `providers` block that is a bare string is published as it stands. */
  lemma NonMappingIsEchoed(text: string)
    ensures var root := Object(map["providers" := String(text)]);
            CleanRoot(root) == root && !FitsSchema(Lookup(CleanRoot(root), [Key("providers")]))
  {
    var root := Object(map["providers" := String(text)]);
    OwnEntryAt(root, "providers");
    assert CleanRoot(root).fields == root.fields;
  }

  /** Projects written as a mapping instead of a list are passed over by both passes, whatever they hold. */
  lemma ProjectsMappingIsEchoed(projects: map<string, Json>)
    ensures var root := Object(map["projects" := Object(projects)]);
            CleanRoot(root) == root && DropBindings(root) == root
  {
    var root := Object(map["projects" := Object(projects)]);
    assert "providers" != "projects" by { assert "providers"[3] != "projects"[3]; }
    assert CleanRoot(root).fields == root.fields;
  }

  // ---------------------------------------------------------------------------------------------
  // Non-interference
  // ---------------------------------------------------------------------------------------------

  /** What can be seen of a value: nothing, that a mapping is there, or a scalar. */
  datatype Glimpse = Nothing | Mapping | Leaf(v: Json)

  function LeafAt(m: map<string, Json>, key: string): Glimpse {
    if key in m && Scalar(m[key]) then Leaf(m[key]) else Nothing
  }

  function MappingAt(m: map<string, Json>, key: string): Glimpse {
    if key in m && m[key].Object? then Mapping else Nothing
  }

  function Under(m: map<string, Json>, key: string): map<string, Json> {
    if key in m && m[key].Object? then m[key].fields else map[]
  }

  /** The places the schema names: a provider, a scalar of it, a block of it, a scalar in a block. */
  datatype Place =
    | ProviderPlace(id: string)
    | ScalarPlace(id: string, key: string)
    | BlockPlace(id: string, block: string)
    | BlockScalarPlace(id: string, block: string, key: string)

  predicate OnSchema(place: Place) {
    match place
    case ProviderPlace(_) => true
    case ScalarPlace(_, key) => key in SCALAR_KEYS
    case BlockPlace(_, block) => block in [CREDENTIAL, BROKER_LIMITS]
    case BlockScalarPlace(_, block, key) => block in [CREDENTIAL, BROKER_LIMITS] && key in BlockKeys(block)
  }

  function Look(providers: map<string, Json>, place: Place): Glimpse {
    match place
    case ProviderPlace(id) => MappingAt(providers, id)
    case ScalarPlace(id, key) => LeafAt(Under(providers, id), key)
    case BlockPlace(id, block) => MappingAt(Under(providers, id), block)
    case BlockScalarPlace(id, block, key) => LeafAt(Under(Under(providers, id), block), key)
  }

  /** The two mappings look alike at every place the schema names. */
  ghost predicate LookAlike(a: map<string, Json>, b: map<string, Json>) {
    forall place :: OnSchema(place) ==> Look(a, place) == Look(b, place)
  }

  /** Cleaning changes nothing that the schema lets one see. */
  lemma CleanKeepsEveryGlimpse(providers: map<string, Json>, place: Place)
    requires OnSchema(place)
    ensures Look(CleanProviders(providers), place) == Look(providers, place)
  {
  }

  lemma AlikeBlocksCleanAlike(a: map<string, Json>, b: map<string, Json>, id: string, block: string)
    requires LookAlike(a, b) && block in [CREDENTIAL, BROKER_LIMITS]
    ensures CleanBlock(Under(Under(a, id), block), BlockKeys(block))
            == CleanBlock(Under(Under(b, id), block), BlockKeys(block))
  {
    var x, y := Under(Under(a, id), block), Under(Under(b, id), block);
    forall key | key in BlockKeys(block) ensures LeafAt(x, key) == LeafAt(y, key) {
      assert OnSchema(BlockScalarPlace(id, block, key));
      assert Look(a, BlockScalarPlace(id, block, key)) == Look(b, BlockScalarPlace(id, block, key));
    }
    var cx, cy := CleanBlock(x, BlockKeys(block)), CleanBlock(y, BlockKeys(block));
    forall key ensures (key in cx <==> key in cy) && (key in cx ==> cx[key] == cy[key]) {
      if key in BlockKeys(block) {
        assert LeafAt(x, key) == LeafAt(y, key);
      }
    }
  }

  lemma AlikeEntriesCleanAlike(a: map<string, Json>, b: map<string, Json>, id: string, key: string)
    requires LookAlike(a, b)
    ensures var p, q := Under(a, id), Under(b, id);
            && (key in p && Survives(key, p[key]) <==> key in q && Survives(key, q[key]))
            && (key in p && Survives(key, p[key]) ==> CleanEntry(key, p[key]) == CleanEntry(key, q[key]))
  {
    KeysPartition(key);
    if key in SCALAR_KEYS {
      assert OnSchema(ScalarPlace(id, key));
      assert Look(a, ScalarPlace(id, key)) == Look(b, ScalarPlace(id, key));
    }
    if key in [CREDENTIAL, BROKER_LIMITS] {
      assert OnSchema(BlockPlace(id, key));
      assert Look(a, BlockPlace(id, key)) == Look(b, BlockPlace(id, key));
      AlikeBlocksCleanAlike(a, b, id, key);
    }
  }

  lemma AlikeProvidersCleanAlike(a: map<string, Json>, b: map<string, Json>)
    requires LookAlike(a, b)
    ensures CleanProviders(a) == CleanProviders(b)
  {
    var x, y := CleanProviders(a), CleanProviders(b);
    forall id ensures (id in x <==> id in y) && (id in x ==> x[id] == y[id]) {
      assert OnSchema(ProviderPlace(id));
      assert Look(a, ProviderPlace(id)) == Look(b, ProviderPlace(id));
      forall key
        ensures var p, q := Under(a, id), Under(b, id);
                && (key in p && Survives(key, p[key]) <==> key in q && Survives(key, q[key]))
                && (key in p && Survives(key, p[key]) ==> CleanEntry(key, p[key]) == CleanEntry(key, q[key]))
      {
        AlikeEntriesCleanAlike(a, b, id, key);
      }
      assert CleanProvider(Under(a, id)) == CleanProvider(Under(b, id));
    }
  }

  /** Two `providers` mappings are published alike exactly when they agree at every place the schema
      names; nothing else about either can be told from the result. */
  lemma PublishedViewIsTheSchemaView(a: map<string, Json>, b: map<string, Json>)
    ensures CleanProviders(a) == CleanProviders(b) <==> LookAlike(a, b)
  {
    if LookAlike(a, b) {
      AlikeProvidersCleanAlike(a, b);
    }
    if CleanProviders(a) == CleanProviders(b) {
      forall place | OnSchema(place) ensures Look(a, place) == Look(b, place) {
        CleanKeepsEveryGlimpse(a, place);
        CleanKeepsEveryGlimpse(b, place);
      }
    }
  }

  /** The two values differ at most in schema-invisible parts of their `providers` mappings. */
  ghost predicate HoldersAlike(u: Json, v: Json) {
    || u == v
    || (&& u.Object? && v.Object? && "providers" in u.fields && "providers" in v.fields
        && u.fields - {"providers"} == v.fields - {"providers"}
        && u.fields["providers"].Object? && v.fields["providers"].Object?
        && LookAlike(u.fields["providers"].fields, v.fields["providers"].fields))
  }

  /** Two maps agree except, perhaps, at one key. */
  lemma AgreeElsewhere(u: map<string, Json>, v: map<string, Json>, key: string)
    ensures u - {key} == v - {key} <==>
              forall k :: k != key ==> (k in u <==> k in v) && (k in u ==> u[k] == v[k])
  {
    if u - {key} == v - {key} {
      forall k | k != key ensures (k in u <==> k in v) && (k in u ==> u[k] == v[k]) {
        assert k in u <==> k in u - {key};
        assert k in v <==> k in v - {key};
      }
    }
  }

  lemma HoldersCleanAlikeExactly(u: Json, v: Json)
    ensures CleanHolder(u) == CleanHolder(v) <==> HoldersAlike(u, v)
  {
    if u != v && HoldersAlike(u, v) {
      AlikeProvidersCleanAlike(u.fields["providers"].fields, v.fields["providers"].fields);
      AgreeElsewhere(u.fields, v.fields, "providers");
      assert CleanHolder(u).fields == CleanHolder(v).fields;
    }
    if u != v && CleanHolder(u) == CleanHolder(v) {
      HolderShape(u);
      HolderShape(v);
      AgreeElsewhere(u.fields, v.fields, "providers");
      PublishedViewIsTheSchemaView(u.fields["providers"].fields, v.fields["providers"].fields);
    }
  }

  lemma HolderShape(u: Json)
    ensures CleanHolder(u).Object? <==> u.Object?
    ensures u.Object? ==>
              && (forall k :: k != "providers" ==>
                    (k in u.fields <==> k in CleanHolder(u).fields)
                    && (k in u.fields ==> u.fields[k] == CleanHolder(u).fields[k]))
              && ("providers" in u.fields <==> "providers" in CleanHolder(u).fields)
              && ("providers" in u.fields ==>
                    && (u.fields["providers"].Object? <==> CleanHolder(u).fields["providers"].Object?)
                    && (!u.fields["providers"].Object? ==> CleanHolder(u) == u))
  {
  }

  predicate HasList(root: Json) {
    root.Object? && "projects" in root.fields && root.fields["projects"].Array?
  }

  /** The tree with an empty list of projects. */
  function Bare(root: Json): Json
    requires HasList(root)
  {
    Object(root.fields["projects" := Array([])])
  }

  /** Whole trees that differ at most in schema-invisible parts: of the shared block, and of each listed
      project's. */
  ghost predicate RootsAlike(a: Json, b: Json) {
    if HasList(a) && HasList(b) then
      && HoldersAlike(Bare(a), Bare(b))
      && |Projects(a)| == |Projects(b)|
      && forall i :: 0 <= i < |Projects(a)| ==> HoldersAlike(Projects(a)[i], Projects(b)[i])
    else HoldersAlike(a, b)
  }

  lemma CleanWithList(root: Json)
    requires HasList(root)
    ensures CleanHolder(Bare(root)).Object?
    ensures CleanRoot(root)
            == Object(CleanHolder(Bare(root)).fields["projects" := Array(CleanEach(Projects(root)))])
    ensures "projects" in CleanHolder(Bare(root)).fields
            && CleanHolder(Bare(root)).fields["projects"] == Array([])
  {
    assert "providers" != "projects" by { assert "providers"[3] != "projects"[3]; }
    assert CleanRoot(root).fields
           == CleanHolder(Bare(root)).fields["projects" := Array(CleanEach(Projects(root)))];
  }

  lemma CleanWithoutList(root: Json)
    requires !HasList(root)
    ensures CleanRoot(root) == CleanHolder(root) && !HasList(CleanRoot(root))
  {
    assert "providers" != "projects" by { assert "providers"[3] != "projects"[3]; }
  }

  lemma ListsCleanAlikeExactly(us: seq<Json>, vs: seq<Json>)
    ensures CleanEach(us) == CleanEach(vs) <==>
              |us| == |vs| && forall i :: 0 <= i < |us| ==> HoldersAlike(us[i], vs[i])
  {
    if |us| == |vs| {
      forall i | 0 <= i < |us| ensures CleanEach(us)[i] == CleanEach(vs)[i] <==> HoldersAlike(us[i], vs[i]) {
        HoldersCleanAlikeExactly(us[i], vs[i]);
      }
    }
  }

  /** For all trees: two are published alike if and only if they differ at most where the schema cannot
      see, in the shared block or in any listed project's. */
  lemma TreesPublishedAlikeExactly(a: Json, b: Json)
    ensures CleanRoot(a) == CleanRoot(b) <==> RootsAlike(a, b)
  {
    if HasList(a) && HasList(b) {
      CleanWithList(a);
      CleanWithList(b);
      ListsCleanAlikeExactly(Projects(a), Projects(b));
      HoldersCleanAlikeExactly(Bare(a), Bare(b));
      SameUpTo(CleanHolder(Bare(a)).fields, CleanHolder(Bare(b)).fields,
               Array(CleanEach(Projects(a))), Array(CleanEach(Projects(b))));
    } else if !HasList(a) && !HasList(b) {
      CleanWithoutList(a);
      CleanWithoutList(b);
      HoldersCleanAlikeExactly(a, b);
    } else {
      ListsDoNotComeAndGo(a, b);
    }
  }

  lemma ListsDoNotComeAndGo(a: Json, b: Json)
    requires HasList(a) != HasList(b)
    ensures CleanRoot(a) != CleanRoot(b) && !HoldersAlike(a, b)
  {
    assert "providers" != "projects" by { assert "providers"[3] != "projects"[3]; }
    var x, y := if HasList(a) then a else b, if HasList(a) then b else a;
    CleanWithList(x);
    CleanWithoutList(y);
    assert HasList(CleanRoot(x));
    if HoldersAlike(a, b) {
      AgreeElsewhere(a.fields, b.fields, "providers");
    }
  }

  lemma SameUpTo(u: map<string, Json>, v: map<string, Json>, x: Json, y: Json)
    requires "projects" in u && "projects" in v && u["projects"] == v["projects"]
    ensures u["projects" := x] == v["projects" := y] <==> u == v && x == y
  {
    if u["projects" := x] == v["projects" := y] {
      var uu, vv := u["projects" := x], v["projects" := y];
      assert uu["projects"] == x && vv["projects"] == y;
      forall k ensures (k in u <==> k in v) && (k in u ==> u[k] == v[k]) {
        assert k in uu <==> k in vv;
        if k in u && k != "projects" {
          assert uu[k] == u[k] && vv[k] == v[k];
        }
      }
    }
  }
}
