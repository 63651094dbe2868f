/** Putting Pilot's plugin into OpenClaw's nested configuration: legacy lists are migrated into the
    load paths, the allowlist, the load paths and the plugin's own entry are brought into shape, and
    a health check says whether there is anything to do. */
module OpenClaw {
  import opened Wrappers
  import opened ConfigMerge
  import opened PluginInject

  /** `supersedes` says that a path or spec is one of those that the plugin replaces. */
  datatype Setup = Setup(
    id: string,
    spec: string,
    path: string,
    mentions: string -> bool,
    supersedes: string -> bool,
    stripScheme: string -> string,
    entryConfig: Fields,
    conversationAccess: bool)

  const LOAD := "load"
  const PATHS := "paths"
  const ENTRIES := "entries"
  const ALLOW := "allow"
  const HOOKS := "hooks"
  const ACCESS := "allowConversationAccess"

  predicate PathMatches(c: Setup, e: Json) {
    e.Str? && (e.s == c.spec || e.s == c.path || c.mentions(e.s))
  }

  predicate Superseded(c: Setup, e: Json) { e.Str? && c.supersedes(e.s) }

  /** `openclawEntry`. */
  function Desired(c: Setup): Fields {
    var entry := Merge(map[], c.entryConfig);
    if c.conversationAccess then entry else entry - {HOOKS}
  }

  // ---------------------------------------------------------------- the parts of the document

  datatype Parts = Parts(rest: Fields, plugins: Fields, load: Fields, paths: seq<Json>, entries: Fields)

  function WithoutLegacy(json: Fields): Fields {
    json - (if IsArr(json, PLUGIN) then {PLUGIN} else {}) - (if IsArr(json, PLUGINS) then {PLUGINS} else {})
  }

  function Open(json: Fields): Parts {
    var rest := WithoutLegacy(json);
    var plugins := FieldsAt(rest, PLUGINS);
    var load := FieldsAt(plugins, LOAD);
    Parts(rest, plugins, load, Items(load, PATHS), FieldsAt(plugins, ENTRIES))
  }

  function Close(p: Parts): Fields {
    p.rest[PLUGINS := Obj(p.plugins[LOAD := Obj(p.load[PATHS := Arr(p.paths)])][ENTRIES := Obj(p.entries)])]
  }

  lemma {:induction false} KeysDiffer()
    ensures PLUGIN != PLUGINS && LOAD != ENTRIES && LOAD != ALLOW && ENTRIES != ALLOW
  {
    assert |PLUGIN| != |PLUGINS| && |LOAD| != |ENTRIES| && |LOAD| != |ALLOW| && |ENTRIES| != |ALLOW|;
  }

  /** What was put in is found again. */
  lemma {:induction false} OpenClose(p: Parts)
    requires !IsArr(p.rest, PLUGIN)
    ensures var q := Open(Close(p));
            && q.paths == p.paths && q.entries == p.entries
            && Find(q.plugins, ALLOW) == Find(p.plugins, ALLOW)
            && Close(q) == Close(p) && WithoutLegacy(Close(p)) == Close(p)
  {
    KeysDiffer();
    var json := Close(p);
    assert Find(json, PLUGIN) == Find(p.rest, PLUGIN);
    assert json - {} - {} == json;
    var q := Open(json);
    assert q.plugins == p.plugins[LOAD := Obj(p.load[PATHS := Arr(p.paths)])][ENTRIES := Obj(p.entries)];
    assert q.load == p.load[PATHS := Arr(p.paths)];
    assert q.load[PATHS := Arr(q.paths)] == q.load;
    assert q.plugins[LOAD := Obj(q.load)] == q.plugins;
    assert q.plugins[ENTRIES := Obj(q.entries)] == q.plugins;
    assert json[PLUGINS := Obj(q.plugins)] == json;
  }

  // ---------------------------------------------------------------- each part brought into shape

  function Legacy(json: Fields): seq<Json> { Items(json, PLUGIN) + Items(json, PLUGINS) }

  /** The spec of a legacy entry; the empty one counts as none. */
  function LegacySpec(e: Json): string {
    if e.Str? then e.s else if e.Arr? && e.items != [] && e.items[0].Str? then e.items[0].s else ""
  }

  predicate Migrates(c: Setup, e: Json) {
    LegacySpec(e) != "" && !PathMatches(c, Str(LegacySpec(e))) && !c.supersedes(LegacySpec(e))
  }

  /** The load paths with the first `n` legacy entries taken over. */
  function Migrated(c: Setup, paths: seq<Json>, legacy: seq<Json>, n: nat): seq<Json>
    requires n <= |legacy|
  {
    if n == 0 then paths
    else
      var before := Migrated(c, paths, legacy, n - 1);
      var path := Str(c.stripScheme(LegacySpec(legacy[n - 1])));
      if Migrates(c, legacy[n - 1]) && path !in before then before + [path] else before
  }

  function Kept(c: Setup, paths: seq<Json>): seq<Json> { Filter(e => !Superseded(c, e), paths) }

  function Owned(c: Setup, paths: seq<Json>): seq<Json> { Filter(e => PathMatches(c, e), paths) }

  function Placed(c: Setup, paths: seq<Json>): seq<Json> {
    if Owned(c, paths) == [Str(c.path)] then paths else Filter(e => !PathMatches(c, e), paths) + [Str(c.path)]
  }

  predicate AllowLacks(c: Setup, plugins: Fields) {
    IsArr(plugins, ALLOW) && plugins[ALLOW].items != [] && Str(c.id) !in plugins[ALLOW].items
  }

  function Allowed(c: Setup, plugins: Fields): Fields {
    if AllowLacks(c, plugins) then plugins[ALLOW := Arr(plugins[ALLOW].items + [Str(c.id)])] else plugins
  }

  predicate GrantsAccess(c: Setup, entry: Json) {
    !c.conversationAccess && entry.Obj? && IsObj(entry.fields, HOOKS) && ACCESS in entry.fields[HOOKS].fields
  }

  /** The user's entry without a grant that the host does not know. */
  function Revoked(c: Setup, entry: Json): Json {
    if !GrantsAccess(c, entry) then entry
    else
      var hooks := entry.fields[HOOKS].fields - {ACCESS};
      Obj(if hooks == map[] then entry.fields - {HOOKS} else entry.fields[HOOKS := Obj(hooks)])
  }

  predicate Configured(c: Setup, entry: Json) { entry.Obj? && IsSubset(entry.fields, Desired(c)) }

  function Configure(c: Setup, entry: Json): Json {
    if Configured(c, entry) then entry else Obj(Merge(EntryFields(entry), Desired(c)))
  }

  /** The plugin's entry; a missing one is as good as null. */
  function EntryOf(c: Setup, entries: Fields): Json { Find(entries, c.id).GetOr(Null) }

  function Shaped(c: Setup, p: Parts, legacy: seq<Json>): Parts {
    p.(plugins := Allowed(c, p.plugins),
       paths := Placed(c, Kept(c, Migrated(c, p.paths, legacy, |legacy|))),
       entries := p.entries[c.id := Configure(c, Revoked(c, EntryOf(c, p.entries)))])
  }

  function Injected(c: Setup, json: Fields): Fields { Close(Shaped(c, Open(json), Legacy(json))) }

  /** What the injection reports: whether any of its steps had something to do. */
  predicate Mutates(c: Setup, json: Fields) {
    var p := Open(json);
    var paths := Migrated(c, p.paths, Legacy(json), |Legacy(json)|);
    var entry := EntryOf(c, p.entries);
    || IsArr(json, PLUGIN) || IsArr(json, PLUGINS)
    || AllowLacks(c, p.plugins)
    || |Kept(c, paths)| != |paths|
    || Owned(c, Kept(c, paths)) != [Str(c.path)]
    || GrantsAccess(c, entry)
    || !Configured(c, Revoked(c, entry))
  }

  method FilterPaths(keep: Json -> bool, paths: seq<Json>) returns (r: seq<Json>)
    ensures r == Filter(keep, paths)
  {
    r := [];
    for i := 0 to |paths|
      invariant r == Filter(keep, paths[..i])
    {
      assert paths[..i + 1][..i] == paths[..i];
      if keep(paths[i]) { r := r + [paths[i]]; }
    }
    assert paths[..|paths|] == paths;
  }

  method MigrateLegacy(c: Setup, paths: seq<Json>, legacy: seq<Json>) returns (r: seq<Json>)
    ensures r == Migrated(c, paths, legacy, |legacy|)
  {
    r := paths;
    for i := 0 to |legacy|
      invariant r == Migrated(c, paths, legacy, i)
    {
      var spec := LegacySpec(legacy[i]);
      if spec == "" || PathMatches(c, Str(spec)) || c.supersedes(spec) { continue; }
      var path := Str(c.stripScheme(spec));
      if path !in r { r := r + [path]; }
    }
  }

  method PlacePaths(c: Setup, paths: seq<Json>) returns (r: seq<Json>, mutated: bool)
    ensures r == Placed(c, Kept(c, paths))
    ensures mutated <==> |Kept(c, paths)| != |paths| || Owned(c, Kept(c, paths)) != [Str(c.path)]
  {
    mutated := false;
    r := FilterPaths(e => !Superseded(c, e), paths);
    if |r| != |paths| { mutated := true; }
    var owned := FilterPaths(e => PathMatches(c, e), r);
    if owned != [Str(c.path)] {
      r := FilterPaths(e => !PathMatches(c, e), r);
      r := r + [Str(c.path)];
      mutated := true;
    }
  }

  method ConfigureEntry(c: Setup, entry: Json) returns (r: Json, mutated: bool)
    ensures r == Configure(c, Revoked(c, entry))
    ensures mutated <==> GrantsAccess(c, entry) || !Configured(c, Revoked(c, entry))
  {
    r, mutated := entry, false;
    if !c.conversationAccess && r.Obj? && IsObj(r.fields, HOOKS) && ACCESS in r.fields[HOOKS].fields {
      var hooks := r.fields[HOOKS].fields - {ACCESS};
      r := Obj(r.fields[HOOKS := Obj(hooks)]);
      if hooks == map[] { r := Obj(entry.fields - {HOOKS}); }
      mutated := true;
    }
    if !Configured(c, r) {
      r := Obj(Merge(EntryFields(r), Desired(c)));
      mutated := true;
    }
  }

  method OpenclawInject(doc: Document, c: Setup) returns (mutated: bool)
    modifies doc
    ensures doc.json == Injected(c, old(doc.json))
    ensures mutated <==> Mutates(c, old(doc.json))
  {
    mutated := false;
    var legacy: seq<Json> := [];
    if IsArr(doc.json, PLUGIN) { mutated := true; }
    if IsArr(doc.json, PLUGINS) { mutated := true; }
    legacy := Items(doc.json, PLUGIN) + Items(doc.json, PLUGINS);
    var p := Open(doc.json);
    var plugins := p.plugins;
    if AllowLacks(c, plugins) {
      plugins := plugins[ALLOW := Arr(plugins[ALLOW].items + [Str(c.id)])];
      mutated := true;
    }
    var paths := MigrateLegacy(c, p.paths, legacy);
    var moved, configured;
    paths, moved := PlacePaths(c, paths);
    var entry;
    entry, configured := ConfigureEntry(c, EntryOf(c, p.entries));
    mutated := mutated || moved || configured;
    doc.json := Close(p.(plugins := plugins, paths := paths, entries := p.entries[c.id := entry]));
  }

  // ---------------------------------------------------------------- the health check

  /** `'key' in value` throws on a value that is neither an object nor falsy. */
  predicate Throws(v: Json) { (v.Str? && v.s != "") || (v.Num? && v.n != 0.0) || (v.Bool? && v.b) }

  predicate AccessProblem(c: Setup, entry: Json) {
    && !c.conversationAccess && entry.Obj? && HOOKS in entry.fields
    && (Throws(entry.fields[HOOKS]) || GrantsAccess(c, entry))
  }

  /** What `needsDeploy` asks: no legacy list, no grant that the host does not know, our path among
      the load paths, our entry configured, and the allowlist open or naming us. */
  predicate Healthy(c: Setup, json: Fields) {
    var p := Open(json);
    var entry := EntryOf(c, p.entries);
    && !IsArr(json, PLUGIN) && !IsArr(json, PLUGINS)
    && !AccessProblem(c, entry)
    && Owned(c, p.paths) != []
    && Configured(c, entry)
    && !AllowLacks(c, p.plugins)
  }

  /** The entry that the merge starts from. */
  function Start(c: Setup, json: Fields): Json { Revoked(c, EntryOf(c, Open(json).entries)) }

  lemma {:induction false} RevokedGrantsNothing(c: Setup, entry: Json)
    ensures !GrantsAccess(c, Revoked(c, entry)) && Revoked(c, Revoked(c, entry)) == Revoked(c, entry)
  {
  }

  lemma {:induction false} FilterTwice(keep: Json -> bool, items: seq<Json>)
    ensures Filter(keep, Filter(keep, items)) == Filter(keep, items)
  {
    FilterMembers(keep, items);
    FilterAll(keep, Filter(keep, items));
  }

  /** Placed paths hold ours exactly once, and are placed. */
  lemma {:induction false} PlacedOnce(c: Setup, paths: seq<Json>)
    ensures Owned(c, Placed(c, paths)) == [Str(c.path)] && Placed(c, Placed(c, paths)) == Placed(c, paths)
  {
    if Owned(c, paths) != [Str(c.path)] {
      var others, ours := (e: Json) => !PathMatches(c, e), (e: Json) => PathMatches(c, e);
      var rest := Filter(others, paths);
      FilterMembers(others, paths);
      FilterNone(ours, rest);
      FilterAppend(ours, rest, [Str(c.path)]);
      FilterAll(ours, [Str(c.path)]);
    }
  }

  /** In placed paths, only our own can be superseded. */
  lemma {:induction false} PlacedKeeps(c: Setup, paths: seq<Json>)
    requires paths == Kept(c, paths)
    ensures forall e <- Placed(c, paths) :: Superseded(c, e) ==> e == Str(c.path)
  {
    FilterMembers(e => !Superseded(c, e), paths);
    FilterMembers(e => !PathMatches(c, e), paths);
  }

  /** A second run puts the paths where they are, even if ours is itself superseded. */
  lemma {:induction false} PathsSettle(c: Setup, paths: seq<Json>)
    ensures var r := Placed(c, Kept(c, paths));
            && Placed(c, Kept(c, r)) == r
            && (|Kept(c, r)| == |r| && Owned(c, Kept(c, r)) == [Str(c.path)] <==> !c.supersedes(c.path))
  {
    var kept := Kept(c, paths);
    var r := Placed(c, kept);
    var keep := (e: Json) => !Superseded(c, e);
    FilterTwice(keep, paths);
    PlacedOnce(c, kept);
    PlacedKeeps(c, kept);
    FilterLength(keep, r);
    if c.supersedes(c.path) {
      SupersededOurs(c, kept);
    } else {
      FilterAll(keep, r);
    }
  }

  /** A superseded path of ours is dropped and put back at the end. */
  lemma {:induction false} SupersededOurs(c: Setup, kept: seq<Json>)
    requires c.supersedes(c.path) && kept == Kept(c, kept)
    ensures Placed(c, Kept(c, Placed(c, kept))) == Placed(c, kept)
    ensures |Kept(c, Placed(c, kept))| != |Placed(c, kept)|
  {
    var keep := (e: Json) => !Superseded(c, e);
    var others, ours := (e: Json) => !PathMatches(c, e), (e: Json) => PathMatches(c, e);
    FilterMembers(keep, kept);
    FilterMembers(ours, kept);
    assert Superseded(c, Str(c.path)) && Str(c.path) !in kept;
    assert Str(c.path) !in Owned(c, kept) && Str(c.path) in [Str(c.path)];
    var rest := Filter(others, kept);
    FilterMembers(others, kept);
    FilterAppend(keep, rest, [Str(c.path)]);
    FilterAll(keep, rest);
    FilterNone(keep, [Str(c.path)]);
    assert Kept(c, rest + [Str(c.path)]) == rest + [] == rest;
    FilterAll(others, rest);
    FilterNone(ours, rest);
  }

  /** The parts after the injection. */
  lemma {:induction false} AfterInjection(c: Setup, json: Fields)
    ensures var r := Injected(c, json);
            var p := Open(r);
            && !IsArr(r, PLUGIN) && !IsArr(r, PLUGINS) && Legacy(r) == []
            && p.paths == Placed(c, Kept(c, Migrated(c, Open(json).paths, Legacy(json), |Legacy(json)|)))
            && EntryOf(c, p.entries) == Configure(c, Start(c, json))
            && !AllowLacks(c, p.plugins)
            && Close(p) == r
  {
    var p := Shaped(c, Open(json), Legacy(json));
    KeysDiffer();
    assert !IsArr(p.rest, PLUGIN);
    OpenClose(p);
    assert !AllowLacks(c, p.plugins);
    var q := Open(Injected(c, json));
    assert Find(q.plugins, ALLOW) == Find(p.plugins, ALLOW);
    assert Items(Injected(c, json), PLUGIN) == [] && Items(Injected(c, json), PLUGINS) == [];
  }

  /** A configured entry stays; merging does not bring back what was revoked. */
  lemma {:induction false} EntrySettles(c: Setup, start: Json)
    requires !GrantsAccess(c, start)
    ensures var r := Configure(c, start);
            && Revoked(c, r) == r && Configure(c, r) == r
            && (Configured(c, r) <==> Assignable(EntryFields(start), Desired(c)))
            && (AccessProblem(c, r) <==>
                  !c.conversationAccess && HOOKS in EntryFields(start) && Throws(EntryFields(start)[HOOKS]))
  {
    var e, d := EntryFields(start), Desired(c);
    SubsetIffNothingToMerge(e, d);
    RepairReachesTheCheckIff(e, d);
    MergeTwice(e, d);
    if !c.conversationAccess {
      assert HOOKS !in d;
      MergeKeepsTheRest(e, d, HOOKS);
      assert Find(Merge(e, d), HOOKS) == Find(e, HOOKS);
    }
  }

  /** What the second run finds in each part. */
  lemma {:induction false} SecondRun(c: Setup, json: Fields)
    ensures var r := Injected(c, json);
            var p := Open(r);
            && Legacy(r) == [] && !IsArr(r, PLUGIN) && !IsArr(r, PLUGINS) && !AllowLacks(c, p.plugins) && Close(p) == r
            && Placed(c, Kept(c, p.paths)) == p.paths
            && (|Kept(c, p.paths)| == |p.paths| && Owned(c, Kept(c, p.paths)) == [Str(c.path)] <==> !c.supersedes(c.path))
            && Revoked(c, EntryOf(c, p.entries)) == EntryOf(c, p.entries)
            && Configure(c, EntryOf(c, p.entries)) == EntryOf(c, p.entries)
            && !GrantsAccess(c, EntryOf(c, p.entries))
            && (Configured(c, EntryOf(c, p.entries)) <==> Assignable(EntryFields(Start(c, json)), Desired(c)))
  {
    AfterInjection(c, json);
    PathsSettle(c, Migrated(c, Open(json).paths, Legacy(json), |Legacy(json)|));
    RevokedGrantsNothing(c, EntryOf(c, Open(json).entries));
    EntrySettles(c, Start(c, json));
    RevokedGrantsNothing(c, EntryOf(c, Open(Injected(c, json)).entries));
  }

  /** Injecting twice gives the same document as injecting once, always; but the second run reports
      that it changed something exactly if our own path is among the replaced ones, or the desired
      entry has a key that cannot be assigned. */
  lemma {:induction false} OpenclawInjectionSettles(c: Setup, json: Fields)
    ensures var r := Injected(c, json);
            && Injected(c, r) == r
            && (Mutates(c, r) <==> c.supersedes(c.path) || !Assignable(EntryFields(Start(c, json)), Desired(c)))
  {
    SecondRun(c, json);
    EntryIsThere(c, json);
    var r := Injected(c, json);
    ShapedAlready(c, Open(r), Legacy(r));
  }

  lemma {:induction false} ShapedAlready(c: Setup, p: Parts, legacy: seq<Json>)
    requires legacy == [] && !AllowLacks(c, p.plugins) && Placed(c, Kept(c, p.paths)) == p.paths && c.id in p.entries
    requires Configure(c, Revoked(c, EntryOf(c, p.entries))) == EntryOf(c, p.entries)
    ensures Shaped(c, p, legacy) == p && Migrated(c, p.paths, legacy, |legacy|) == p.paths
  {
    assert p.entries[c.id := EntryOf(c, p.entries)] == p.entries;
  }

  lemma {:induction false} EntryIsThere(c: Setup, json: Fields)
    ensures c.id in Open(Injected(c, json)).entries
  {
    var p := Shaped(c, Open(json), Legacy(json));
    KeysDiffer();
    OpenClose(p);
  }

  /** An object, a list, or one of the values that count as false. */
  predicate IsNoPlainValue(v: Json) {
    v.Obj? || v.Arr? || v.Null? || v == Bool(false) || v == Num(0.0) || v == Str("")
  }

  lemma {:induction false} OnlyPlainValuesThrow(v: Json)
    ensures Throws(v) <==> !IsNoPlainValue(v)
  {
  }

  /** The health check passes after the injection exactly if every desired key can be assigned and,
      on a host without conversation access, the user's `hooks` is no plain value on which the test
      itself fails. */
  lemma {:induction false} OpenclawInjectionHealsIff(c: Setup, json: Fields)
    ensures var e := EntryFields(Start(c, json));
            Healthy(c, Injected(c, json)) <==>
              && Assignable(e, Desired(c))
              && (!c.conversationAccess && HOOKS in e ==> IsNoPlainValue(e[HOOKS]))
  {
    AfterInjection(c, json);
    var paths := Migrated(c, Open(json).paths, Legacy(json), |Legacy(json)|);
    PlacedOnce(c, Kept(c, paths));
    RevokedGrantsNothing(c, EntryOf(c, Open(json).entries));
    EntrySettles(c, Start(c, json));
    var e := EntryFields(Start(c, json));
    if HOOKS in e { OnlyPlainValuesThrow(e[HOOKS]); }
  }

  /** Other plugins' entries, and other plugins' paths that are not replaced, are left as they were. */
  lemma {:induction false} OthersAreKept(c: Setup, json: Fields, id: string)
    requires id != c.id
    ensures Find(Open(Injected(c, json)).entries, id) == Find(Open(json).entries, id)
    ensures var foreign := (e: Json) => !PathMatches(c, e);
            Filter(foreign, Open(Injected(c, json)).paths)
              == Filter(foreign, Kept(c, Migrated(c, Open(json).paths, Legacy(json), |Legacy(json)|)))
  {
    KeysDiffer();
    OpenClose(Shaped(c, Open(json), Legacy(json)));
    PlacedForeign(c, Kept(c, Migrated(c, Open(json).paths, Legacy(json), |Legacy(json)|)));
  }

  lemma {:induction false} PlacedForeign(c: Setup, paths: seq<Json>)
    ensures var foreign := (e: Json) => !PathMatches(c, e); Filter(foreign, Placed(c, paths)) == Filter(foreign, paths)
  {
    var foreign := (e: Json) => !PathMatches(c, e);
    FilterTwice(foreign, paths);
    FilterAppend(foreign, Filter(foreign, paths), [Str(c.path)]);
    FilterNone(foreign, [Str(c.path)]);
  }

  // ---------------------------------------------------------------- what the document says afterwards

  /** The path is ours: the spec as configured, its plain path, or one that mentions the plugin. */
  predicate IsOurs(c: Setup, path: string) { path == c.spec || path == c.path || c.mentions(path) }

  /** Of the load paths exactly one is ours, and it is the plain path of our spec. */
  lemma {:induction false} OneOfOurPaths(c: Setup, json: Fields)
    ensures var paths := Open(Injected(c, json)).paths;
            && Filter((e: Json) => e.Str? && IsOurs(c, e.s), paths) == [Str(c.path)]
  {
    AfterInjection(c, json);
    var paths := Open(Injected(c, json)).paths;
    PlacedOnce(c, Kept(c, Migrated(c, Open(json).paths, Legacy(json), |Legacy(json)|)));
    SameFilter((e: Json) => e.Str? && IsOurs(c, e.s), (e: Json) => PathMatches(c, e), paths);
  }

  lemma {:induction false} SameFilter(a: Json -> bool, b: Json -> bool, items: seq<Json>)
    requires forall e :: a(e) == b(e)
    ensures Filter(a, items) == Filter(b, items)
    decreases |items|
  {
    if items != [] { SameFilter(a, b, items[..|items| - 1]); }
  }

  /** A legacy entry names a plugin of its own: not ours, and none that ours replaces. */
  predicate NamesAnother(c: Setup, e: Json, spec: string) {
    && (e == Str(spec) || (e.Arr? && e.items != [] && e.items[0] == Str(spec)))
    && spec != "" && !IsOurs(c, spec) && !c.supersedes(spec)
  }

  /** The path was taken over from one of the first `n` legacy entries. */
  ghost predicate TakenOver(c: Setup, legacy: seq<Json>, n: nat, path: Json)
    requires n <= |legacy|
  {
    exists k, spec :: 0 <= k < n && NamesAnother(c, legacy[k], spec) && path == Str(c.stripScheme(spec))
  }

  lemma {:induction false} MigratesIff(c: Setup, e: Json, spec: string)
    ensures NamesAnother(c, e, spec) <==> Migrates(c, e) && LegacySpec(e) == spec
  {
  }

  /** Every other plugin of a legacy list is among the load paths, after those that were there, each
      once, and nothing else is added. */
  lemma {:induction false} LegacyIsTakenOver(c: Setup, paths: seq<Json>, legacy: seq<Json>, n: nat)
    requires n <= |legacy|
    ensures var r := Migrated(c, paths, legacy, n);
            && paths <= r
            && (forall path :: TakenOver(c, legacy, n, path) ==> path in r)
            && (forall i :: |paths| <= i < |r| ==> r[i] !in r[..i] && TakenOver(c, legacy, n, r[i]))
  {
    if n > 0 {
      LegacyIsTakenOver(c, paths, legacy, n - 1);
      var before, r := Migrated(c, paths, legacy, n - 1), Migrated(c, paths, legacy, n);
      forall path ensures TakenOver(c, legacy, n, path) <==>
          TakenOver(c, legacy, n - 1, path)
          || (Migrates(c, legacy[n - 1]) && path == Str(c.stripScheme(LegacySpec(legacy[n - 1])))) {
        TakenOverStep(c, legacy, n, path);
      }
      forall i | |paths| <= i < |r| ensures r[i] !in r[..i] && TakenOver(c, legacy, n, r[i]) {
        if i < |before| { assert r[..i] == before[..i] && r[i] == before[i]; } else { assert r[..i] == before; }
      }
    }
  }

  lemma {:induction false} TakenOverStep(c: Setup, legacy: seq<Json>, n: nat, path: Json)
    requires 0 < n <= |legacy|
    ensures TakenOver(c, legacy, n, path) <==>
              TakenOver(c, legacy, n - 1, path)
              || (Migrates(c, legacy[n - 1]) && path == Str(c.stripScheme(LegacySpec(legacy[n - 1]))))
  {
    var e := legacy[n - 1];
    MigratesIff(c, e, LegacySpec(e));
    if k, spec :| 0 <= k < n && NamesAnother(c, legacy[k], spec) && path == Str(c.stripScheme(spec)) {
      MigratesIff(c, legacy[k], spec);
      if k < n - 1 { assert TakenOver(c, legacy, n - 1, path); }
    }
    if TakenOver(c, legacy, n - 1, path) {
      var k, spec :| 0 <= k < n - 1 && NamesAnother(c, legacy[k], spec) && path == Str(c.stripScheme(spec));
      assert NamesAnother(c, legacy[k], spec);
    }
  }

  /** A non-empty allowlist names us afterwards, behind those it named; none is made up. */
  lemma {:induction false} AllowlistNamesUs(c: Setup, json: Fields)
    ensures var before, after := Find(Open(json).plugins, ALLOW), Find(Open(Injected(c, json)).plugins, ALLOW);
            if before.Some? && before.value.Arr? && before.value.items != [] && Str(c.id) !in before.value.items
            then after == Some(Arr(before.value.items + [Str(c.id)])) else after == before
  {
    KeysDiffer();
    OpenClose(Shaped(c, Open(json), Legacy(json)));
  }

  /** What the host is given: the configured entry, without hooks unless it has conversation access. */
  lemma {:induction false} DesiredIsTheConfig(c: Setup, key: string)
    requires key != PROTO
    ensures Find(Desired(c), key) == if key == HOOKS && !c.conversationAccess then None else Find(c.entryConfig, key)
  {
    assert HOOKS[0] != PROTO[0];
  }

  /** Revoking takes the one grant out of the entry's hooks, and the hooks if nothing else is in
      them; everything else stays. */
  lemma {:induction false} RevokedLosesTheGrant(c: Setup, entry: Json, key: string, hook: string)
    requires GrantsAccess(c, entry) && key != HOOKS && hook != ACCESS
    ensures var r, hooks := Revoked(c, entry), entry.fields[HOOKS].fields;
            && r.Obj? && Find(r.fields, key) == Find(entry.fields, key)
            && (HOOKS in r.fields <==> exists h :: h in hooks && h != ACCESS)
            && (HOOKS in r.fields ==>
                  && r.fields[HOOKS].Obj? && ACCESS !in r.fields[HOOKS].fields
                  && Find(r.fields[HOOKS].fields, hook) == Find(hooks, hook))
            && (hook in hooks ==> HOOKS in r.fields)
  {
    var rest := entry.fields[HOOKS].fields - {ACCESS};
    if h :| h in entry.fields[HOOKS].fields && h != ACCESS { assert h in rest; }
    if rest != map[] { var h :| h in rest; assert h in entry.fields[HOOKS].fields && h != ACCESS; }
  }
}
