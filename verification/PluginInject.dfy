/** Putting Pilot's plugin into a host's configuration: the flat list of plugin specs, and OpenClaw's
    nested form with load paths, an allowlist and an entry of its own. For both, the health check
    passes afterwards and a second run changes nothing, exactly when the stated conditions hold.

    How a spec is normalised, what it mentions and what it replaces are functions of the
    configuration and the platform. */
module PluginInject {
  import opened Wrappers
  import opened Seqs
  import opened ConfigMerge

  datatype Plugin = Plugin(
    id: string,
    spec: string,
    configKey: Option<string>,
    normalize: string -> string,
    mentions: string -> bool,
    supersedes: string -> bool)

  class Document {
    var json: Fields

    constructor (json: Fields)
      ensures this.json == json
    {
      this.json := json;
    }
  }

  predicate IsArr(json: Fields, key: string) { key in json && json[key].Arr? }

  predicate IsObj(json: Fields, key: string) { key in json && json[key].Obj? }

  function Items(json: Fields, key: string): seq<Json> { if IsArr(json, key) then json[key].items else [] }

  function FieldsAt(json: Fields, key: string): Fields { if IsObj(json, key) then json[key].fields else map[] }

  function EntryFields(entry: Json): Fields { if entry.Obj? then entry.fields else map[] }

  // ---------------------------------------------------------------- the flat list

  const PLUGIN := "plugin"
  const PLUGINS := "plugins"
  const PACKAGE := "package"

  function EntrySpec(entry: Json): string {
    if entry.Str? then entry.s
    else if entry.Arr? then if entry.items != [] && entry.items[0].Str? then entry.items[0].s else ""
    else if entry.Obj? && PACKAGE in entry.fields && entry.fields[PACKAGE].Str? then entry.fields[PACKAGE].s
    else ""
  }

  predicate Matches(pl: Plugin, entry: Json) {
    pl.normalize(EntrySpec(entry)) == pl.normalize(pl.spec) || pl.mentions(EntrySpec(entry))
  }

  predicate IsReplacement(pl: Plugin, entry: Json) {
    pl.normalize(EntrySpec(entry)) != pl.normalize(pl.spec) && pl.supersedes(EntrySpec(entry))
  }

  predicate IsForeign(pl: Plugin, entry: Json) { !Matches(pl, entry) && !IsReplacement(pl, entry) }

  function Filter(keep: Json -> bool, items: seq<Json>): seq<Json> {
    if items == [] then []
    else
      var last := items[|items| - 1];
      Filter(keep, items[..|items| - 1]) + if keep(last) then [last] else []
  }

  function Foreign(pl: Plugin, items: seq<Json>): seq<Json> { Filter(e => IsForeign(pl, e), items) }

  function PluginKey(pl: Plugin, json: Fields): string {
    if pl.configKey.Some? then pl.configKey.value else if IsArr(json, PLUGINS) then PLUGINS else PLUGIN
  }

  function FlatKeys(pl: Plugin, json: Fields): seq<string> {
    if pl.configKey.Some? then if IsArr(json, pl.configKey.value) then [pl.configKey.value] else []
    else (if IsArr(json, PLUGIN) then [PLUGIN] else []) + (if IsArr(json, PLUGINS) then [PLUGINS] else [])
  }

  function InjectedItems(pl: Plugin, items: seq<Json>, own: bool): seq<Json> {
    Foreign(pl, items) + if own then [Str(pl.spec)] else []
  }

  function WithList(pl: Plugin, json: Fields): Fields {
    if IsArr(json, PluginKey(pl, json)) then json else json[PluginKey(pl, json) := Arr([])]
  }

  /** The lists under the first `n` keys cleaned, with the spec at the end of the plugin key's own. */
  function Listed(pl: Plugin, start: Fields, keys: seq<string>, n: nat, own: string): Fields
    requires n <= |keys|
  {
    map k | k in start :: if k in keys[..n] then Arr(InjectedItems(pl, Items(start, k), k == own)) else start[k]
  }

  function FlatInjected(pl: Plugin, json: Fields): Fields {
    var start := WithList(pl, json);
    var keys := FlatKeys(pl, start);
    Listed(pl, start, keys, |keys|, PluginKey(pl, json))
  }

  method FilterForeign(pl: Plugin, items: seq<Json>) returns (r: seq<Json>)
    ensures r == Foreign(pl, items)
  {
    r := [];
    for i := 0 to |items|
      invariant r == Foreign(pl, items[..i])
    {
      assert items[..i + 1][..i] == items[..i];
      if !Matches(pl, items[i]) && !IsReplacement(pl, items[i]) { r := r + [items[i]]; }
    }
    assert items[..|items|] == items;
  }

  method FlatArrayInject(doc: Document, pl: Plugin) returns (mutated: bool)
    modifies doc
    ensures doc.json == FlatInjected(pl, old(doc.json))
    ensures mutated <==> doc.json != WithList(pl, old(doc.json))
  {
    var pluginKey := PluginKey(pl, doc.json);
    if !IsArr(doc.json, pluginKey) { doc.json := doc.json[pluginKey := Arr([])]; }
    var keys := FlatKeys(pl, doc.json);
    ghost var start, changed := doc.json, "";
    mutated := false;
    assert Listed(pl, start, keys, 0, pluginKey) == start;
    FlatKeysAreLists(pl, start);
    for i := 0 to |keys|
      invariant doc.json == Listed(pl, start, keys, i, pluginKey)
      invariant if mutated then changed in start && doc.json[changed] != start[changed] && changed in keys[..i]
                else doc.json == start
    {
      var key := keys[i];
      ListedStep(pl, start, keys, i, pluginKey);
      var after := FilterForeign(pl, Items(doc.json, key));
      after := after + if key == pluginKey then [Str(pl.spec)] else [];
      if Items(doc.json, key) != after {
        if !mutated { changed := key; }
        mutated := true;
        doc.json := doc.json[key := Arr(after)];
      }
    }
    assert keys[..|keys|] == keys;
  }

  lemma {:induction false} FlatKeysAreLists(pl: Plugin, json: Fields)
    ensures forall i :: 0 <= i < |FlatKeys(pl, json)| ==> IsArr(json, FlatKeys(pl, json)[i])
    ensures forall i, k :: 0 <= i < k < |FlatKeys(pl, json)| ==> FlatKeys(pl, json)[i] != FlatKeys(pl, json)[k]
  {
    assert |PLUGIN| != |PLUGINS|;
  }

  lemma {:induction false} ListedStep(pl: Plugin, start: Fields, keys: seq<string>, i: nat, own: string)
    requires i < |keys| && IsArr(start, keys[i]) && forall k, m :: 0 <= k < m < |keys| ==> keys[k] != keys[m]
    ensures var before, key := Listed(pl, start, keys, i, own), keys[i];
            && key in before && before[key] == start[key]
            && Listed(pl, start, keys, i + 1, own) == before[key := Arr(InjectedItems(pl, Items(before, key), key == own))]
  {
    assert keys[..i + 1] == keys[..i] + [keys[i]];
    assert keys[i] !in keys[..i];
  }

  /** What `needsDeploy` asks of a flat configuration. */
  predicate FlatHealthy(pl: Plugin, json: Fields) {
    && IsArr(json, PluginKey(pl, json))
    && |Filter(e => Matches(pl, e), Items(json, PluginKey(pl, json)))| == 1
    && forall k <- FlatKeys(pl, json) :: KeyHealthy(pl, json, k, PluginKey(pl, json))
  }

  predicate KeyHealthy(pl: Plugin, json: Fields, key: string, own: string) {
    && (forall e <- Items(json, key) :: !IsReplacement(pl, e))
    && (key != own ==> forall e <- Items(json, key) :: !Matches(pl, e))
  }

  lemma {:induction false} FilterMembers(keep: Json -> bool, items: seq<Json>)
    ensures forall e <- Filter(keep, items) :: keep(e) && e in items
    decreases |items|
  {
    if items != [] { FilterMembers(keep, items[..|items| - 1]); }
  }

  lemma {:induction false} FilterAppend(keep: Json -> bool, a: seq<Json>, b: seq<Json>)
    ensures Filter(keep, a + b) == Filter(keep, a) + Filter(keep, b)
    decreases |b|
  {
    if b == [] {
      assert a + b == a;
    } else {
      var n := |b| - 1;
      assert (a + b)[..|a| + n] == a + b[..n];
      FilterAppend(keep, a, b[..n]);
    }
  }

  lemma {:induction false} FilterAll(keep: Json -> bool, items: seq<Json>)
    requires forall e <- items :: keep(e)
    ensures Filter(keep, items) == items
    decreases |items|
  {
    if items != [] {
      assert items[|items| - 1] in items;
      FilterAll(keep, items[..|items| - 1]);
      assert items == items[..|items| - 1] + [items[|items| - 1]];
    }
  }

  lemma {:induction false} FilterNone(keep: Json -> bool, items: seq<Json>)
    requires forall e <- items :: !keep(e)
    ensures Filter(keep, items) == []
    decreases |items|
  {
    if items != [] {
      assert items[|items| - 1] in items;
      FilterNone(keep, items[..|items| - 1]);
    }
  }

  lemma {:induction false} FilterLength(keep: Json -> bool, items: seq<Json>)
    ensures |Filter(keep, items)| <= |items|
    ensures |Filter(keep, items)| == |items| <==> forall e <- items :: keep(e)
    decreases |items|
  {
    if items != [] {
      var n := |items| - 1;
      FilterLength(keep, items[..n]);
      assert items == items[..n] + [items[n]];
      assert forall e :: e in items <==> e in items[..n] || e == items[n];
    }
  }

  /** A cleaned list is clean: cleaning it again gives the same, and ours is in it exactly once. */
  lemma {:induction false} ItemsAreSettled(pl: Plugin, items: seq<Json>, own: bool)
    ensures var r := InjectedItems(pl, items, own);
            && InjectedItems(pl, r, own) == r
            && Foreign(pl, r) == Foreign(pl, items)
            && |Filter(e => Matches(pl, e), r)| == (if own then 1 else 0)
            && (forall e <- r :: !IsReplacement(pl, e) && (Matches(pl, e) ==> own))
  {
    var foreign, tail := Foreign(pl, items), if own then [Str(pl.spec)] else [];
    var keep := (e: Json) => IsForeign(pl, e);
    FilterMembers(keep, items);
    assert forall e <- foreign :: IsForeign(pl, e);
    assert forall e <- tail :: Matches(pl, e) && !IsReplacement(pl, e);
    ForeignThenOurs(pl, foreign, tail);
  }

  lemma {:induction false} ForeignThenOurs(pl: Plugin, foreign: seq<Json>, tail: seq<Json>)
    requires (forall e <- foreign :: IsForeign(pl, e)) && forall e <- tail :: Matches(pl, e)
    ensures Foreign(pl, foreign + tail) == foreign
    ensures Filter(e => Matches(pl, e), foreign + tail) == tail
  {
    var keep, ours := (e: Json) => IsForeign(pl, e), (e: Json) => Matches(pl, e);
    FilterAppend(keep, foreign, tail);
    FilterAppend(ours, foreign, tail);
    FilterAll(keep, foreign);
    FilterNone(ours, foreign);
    FilterNone(keep, tail);
    FilterAll(ours, tail);
    assert foreign + [] == foreign && [] + tail == tail;
  }

  /** The same keys hold lists before and after. */
  lemma {:induction false} SameKeys(pl: Plugin, json: Fields)
    ensures var start, r := WithList(pl, json), FlatInjected(pl, json);
            && PluginKey(pl, start) == PluginKey(pl, json) && PluginKey(pl, r) == PluginKey(pl, json)
            && FlatKeys(pl, r) == FlatKeys(pl, start) && PluginKey(pl, json) in FlatKeys(pl, start)
            && WithList(pl, r) == r
  {
    var start, r := WithList(pl, json), FlatInjected(pl, json);
    assert |PLUGIN| != |PLUGINS|;
    assert forall k <- start :: IsArr(r, k) <==> IsArr(start, k);
    assert r.Keys == start.Keys;
    var own := PluginKey(pl, json);
    assert IsArr(start, own);
    if pl.configKey.None? {
      assert FlatKeys(pl, start)[if own == PLUGINS && IsArr(start, PLUGIN) then 1 else 0] == own;
    } else {
      assert FlatKeys(pl, start)[0] == own;
    }
  }

  lemma {:induction false} KeySettles(pl: Plugin, json: Fields, k: string)
    requires k in FlatKeys(pl, WithList(pl, json))
    ensures var own, start, r := PluginKey(pl, json), WithList(pl, json), FlatInjected(pl, json);
            && IsArr(r, k)
            && InjectedItems(pl, Items(r, k), k == own) == Items(r, k)
            && KeyHealthy(pl, r, k, own)
            && Foreign(pl, Items(r, k)) == Foreign(pl, Items(start, k))
            && |Filter(e => Matches(pl, e), Items(r, k))| == (if k == own then 1 else 0)
  {
    var own, start := PluginKey(pl, json), WithList(pl, json);
    var keys := FlatKeys(pl, start);
    assert keys[..|keys|] == keys;
    FlatKeysAreLists(pl, start);
    ItemsAreSettled(pl, Items(start, k), k == own);
  }

  lemma {:induction false} OtherKeys(pl: Plugin, json: Fields, k: string)
    requires k !in FlatKeys(pl, WithList(pl, json))
    ensures Find(FlatInjected(pl, json), k) == Find(json, k)
  {
    SameKeys(pl, json);
  }

  lemma {:induction false} ForeignStays(pl: Plugin, json: Fields, k: string)
    ensures Foreign(pl, Items(FlatInjected(pl, json), k)) == Foreign(pl, Items(json, k))
  {
    if k in FlatKeys(pl, WithList(pl, json)) {
      KeySettles(pl, json, k);
      assert Items(WithList(pl, json), k) == Items(json, k);
    } else {
      OtherKeys(pl, json, k);
    }
  }

  /** A second run finds nothing to change. */
  lemma {:induction false} FlatInjectTwice(pl: Plugin, json: Fields)
    ensures var r := FlatInjected(pl, json); FlatInjected(pl, r) == r && WithList(pl, r) == r
  {
    var r := FlatInjected(pl, json);
    SameKeys(pl, json);
    var keys := FlatKeys(pl, r);
    assert keys[..|keys|] == keys;
    forall k <- r ensures FlatInjected(pl, r)[k] == r[k] {
      if k in keys { KeySettles(pl, json, k); }
    }
    assert FlatInjected(pl, r).Keys == r.Keys;
  }

  /** After the injection the health check passes, a second run finds nothing to change, and every
      foreign entry of every list is there, in order. */
  lemma {:induction false} FlatInjectionSettles(pl: Plugin, json: Fields)
    ensures var r := FlatInjected(pl, json);
            && FlatHealthy(pl, r)
            && FlatInjected(pl, r) == r && WithList(pl, r) == r
            && forall k :: Foreign(pl, Items(r, k)) == Foreign(pl, Items(json, k))
  {
    var r := FlatInjected(pl, json);
    SameKeys(pl, json);
    forall k | k in FlatKeys(pl, r) ensures KeyHealthy(pl, r, k, PluginKey(pl, r)) { KeySettles(pl, json, k); }
    KeySettles(pl, json, PluginKey(pl, json));
    FlatInjectTwice(pl, json);
    forall k ensures Foreign(pl, Items(r, k)) == Foreign(pl, Items(json, k)) { ForeignStays(pl, json, k); }
  }

  /** What an entry of a list names: itself, the first item of a pair, or its package. */
  lemma {:induction false} WhatAnEntryNames(s: string, more: seq<Json>, fields: Fields)
    ensures EntrySpec(Str(s)) == s && EntrySpec(Arr([Str(s)] + more)) == s
    ensures "package" in fields && fields["package"] == Str(s) ==> EntrySpec(Obj(fields)) == s
  {
    var items := [Str(s)] + more;
    assert items[0] == Str(s);
  }

  /** Where ours is found: under the configured key, else under `plugins` if the document has such a
      list, else under `plugin`; behind every foreign entry that was there. */
  lemma {:induction false} OursStandsLast(pl: Plugin, json: Fields)
    ensures var key := if pl.configKey.Some? then pl.configKey.value
                       else if "plugins" in json && json["plugins"].Arr? then "plugins" else "plugin";
            && IsArr(FlatInjected(pl, json), key)
            && Items(FlatInjected(pl, json), key) == Foreign(pl, Items(json, key)) + [Str(pl.spec)]
  {
    SameKeys(pl, json);
    var key, keys := PluginKey(pl, json), FlatKeys(pl, WithList(pl, json));
    assert keys[..|keys|] == keys;
    FlatKeysAreLists(pl, WithList(pl, json));
    assert Items(WithList(pl, json), key) == Items(json, key);
  }
}
