/** Injecting Pilot's hooks into Claude Code's settings: our handlers are taken out wherever they are
    and put back once per event; everybody else's stay where they are.

    Which commands are ours, and what our command and matcher for an event are, is given. */
module ClaudeHooks {
  import opened Wrappers
  import opened Seqs
  import opened ConfigMerge
  import opened PluginInject

  datatype Hook = Hook(
    events: set<string>,
    command: string -> string,
    matcher: string -> string,
    isOurs: string -> bool)
  {
    ghost predicate Valid() { forall e <- events :: isOurs(command(e)) }
  }

  datatype Error = PolicyForbids | Malformed

  const HOOKS := "hooks"
  const ENV := "env"
  const COMMAND := "command"
  const TYPE := "type"
  const MATCHER := "matcher"
  const DISABLE := "disableAllHooks"
  const MANAGED := "allowManagedHooksOnly"
  const DATA_DIR := "LOONGSUITE_PILOT_DATA_DIR"

  predicate Forbidden(settings: Fields) {
    (DISABLE in settings && settings[DISABLE] == Bool(true)) || (MANAGED in settings && settings[MANAGED] == Bool(true))
  }

  predicate IsOurs(hook: Hook, handler: Json) {
    handler.Obj? && COMMAND in handler.fields && handler.fields[COMMAND].Str? && hook.isOurs(handler.fields[COMMAND].s)
  }

  predicate GroupOk(group: Json) {
    group.Obj? && IsArr(group.fields, HOOKS) && forall h <- group.fields[HOOKS].items :: h.Obj?
  }

  predicate GroupsOk(groups: Json) { groups.Arr? && forall g <- groups.items :: GroupOk(g) }

  /** Missing or an object. */
  predicate ObjectOr(settings: Fields, key: string) { key in settings ==> settings[key].Obj? }

  predicate WellFormed(settings: Fields) {
    && ObjectOr(settings, HOOKS) && ObjectOr(settings, ENV)
    && forall k <- FieldsAt(settings, HOOKS) :: GroupsOk(FieldsAt(settings, HOOKS)[k])
  }

  function Others(hook: Hook, handlers: seq<Json>): seq<Json> { Filter(h => !IsOurs(hook, h), handlers) }

  /** A group without our handlers; a group of ours alone goes. */
  function Cleaned(hook: Hook, group: Json): seq<Json> {
    var handlers := Items(EntryFields(group), HOOKS);
    var rest := Others(hook, handlers);
    if |rest| == |handlers| then [group]
    else if rest != [] then [Obj(EntryFields(group)[HOOKS := Arr(rest)])] else []
  }

  function CleanedAll(hook: Hook, groups: seq<Json>): seq<Json> { FlatMap(g => Cleaned(hook, g), groups) }

  function OurHandler(hook: Hook, event: string): Json {
    Obj(map[TYPE := Str(COMMAND), COMMAND := Str(hook.command(event))])
  }

  function OurGroup(hook: Hook, event: string): Json {
    Obj(map[MATCHER := Str(hook.matcher(event)), HOOKS := Arr([OurHandler(hook, event)])])
  }

  function EventGroups(hook: Hook, groups: seq<Json>, event: string): seq<Json> {
    CleanedAll(hook, groups) + if event in hook.events then [OurGroup(hook, event)] else []
  }

  function MergedHooks(hook: Hook, hooks: Fields): Fields {
    map k | k in hooks.Keys + hook.events :: Arr(EventGroups(hook, Items(hooks, k), k))
  }

  function MergedSettings(hook: Hook, dataDir: string, settings: Fields): Fields {
    settings[HOOKS := Obj(MergedHooks(hook, FieldsAt(settings, HOOKS)))]
            [ENV := Obj(FieldsAt(settings, ENV)[DATA_DIR := Str(dataDir)])]
  }

  function Merge(hook: Hook, dataDir: string, settings: Fields): Result<Fields, Error> {
    if Forbidden(settings) then Err(PolicyForbids)
    else if !WellFormed(settings) then Err(Malformed)
    else Ok(MergedSettings(hook, dataDir, settings))
  }

  // ---------------------------------------------------------------- the loops

  method MergeClaudeHooks(hook: Hook, dataDir: string, settings: Fields) returns (r: Result<Fields, Error>)
    ensures r == Merge(hook, dataDir, settings)
  {
    if Forbidden(settings) { return Err(PolicyForbids); }
    if !ObjectOr(settings, HOOKS) || !ObjectOr(settings, ENV) { return Err(Malformed); }
    var given := FieldsAt(settings, HOOKS);
    var env := FieldsAt(settings, ENV)[DATA_DIR := Str(dataDir)];
    var hooks := given;
    var rest := given.Keys;
    while rest != {}
      invariant rest <= given.Keys == hooks.Keys
      invariant forall k <- given.Keys - rest :: GroupsOk(given[k])
      invariant forall k <- given.Keys ::
                  hooks[k] == if k in rest then given[k] else Arr(CleanedAll(hook, Items(given, k)))
      decreases rest
    {
      var event :| event in rest;
      var groups := CleanGroups(hook, given[event]);
      if groups.Err? { return Err(Malformed); }
      rest := rest - {event};
      hooks := hooks[event := Arr(groups.value)];
    }
    hooks := AddOurs(hook, given, hooks);
    r := Ok(settings[HOOKS := Obj(hooks)][ENV := Obj(env)]);
  }

  /** Lists of groups with one group more for the events in `done`. */
  function WithOurs(ours: string -> Json, lists: Fields, done: set<string>): Fields {
    map k | k in lists.Keys + done :: Arr(Items(lists, k) + if k in done then [ours(k)] else [])
  }

  method AddOurs(hook: Hook, ghost given: Fields, cleaned: Fields) returns (hooks: Fields)
    requires cleaned.Keys == given.Keys
    requires forall k <- given.Keys :: cleaned[k] == Arr(CleanedAll(hook, Items(given, k)))
    ensures hooks == MergedHooks(hook, given)
  {
    hooks := AddEach(e => OurGroup(hook, e), cleaned, hook.events);
    forall k <- hooks ensures hooks[k] == MergedHooks(hook, given)[k] {
      if k !in given { assert Items(given, k) == [] == Items(cleaned, k); }
    }
  }

  method AddEach(ours: string -> Json, lists: Fields, events: set<string>) returns (hooks: Fields)
    requires forall k <- lists :: lists[k].Arr?
    ensures hooks == WithOurs(ours, lists, events)
  {
    hooks := lists;
    var rest := events;
    NoneAdded(ours, lists);
    assert events - rest == {};
    while rest != {}
      invariant rest <= events
      invariant forall k <- hooks :: hooks[k].Arr?
      invariant hooks == WithOurs(ours, lists, events - rest)
      decreases rest
    {
      var event :| event in rest;
      ghost var done := events - rest;
      rest := rest - {event};
      assert events - rest == done + {event};
      if event !in hooks { hooks := hooks[event := Arr([])]; }
      hooks := hooks[event := Arr(Items(hooks, event) + [ours(event)])];
    }
    assert events - rest == events;
  }

  lemma {:induction false} NoneAdded(ours: string -> Json, lists: Fields)
    requires forall k <- lists :: lists[k].Arr?
    ensures WithOurs(ours, lists, {}) == lists
  {
    forall k <- lists
      ensures WithOurs(ours, lists, {})[k] == lists[k]
    {
      assert Items(lists, k) + [] == Items(lists, k);
    }
  }

  method CleanGroups(hook: Hook, groups: Json) returns (r: Result<seq<Json>, Error>)
    ensures r.Ok? <==> GroupsOk(groups)
    ensures r.Ok? ==> r.value == CleanedAll(hook, groups.items)
  {
    if !groups.Arr? { return Err(Malformed); }
    var out: seq<Json> := [];
    for i := 0 to |groups.items|
      invariant forall k :: 0 <= k < i ==> GroupOk(groups.items[k])
      invariant out == CleanedAll(hook, groups.items[..i])
    {
      if !GroupOk(groups.items[i]) { return Err(Malformed); }
      var one := CleanGroup(hook, groups.items[i]);
      CleanedOneMore(hook, groups.items, i);
      out := out + one;
    }
    assert groups.items[..|groups.items|] == groups.items;
    r := Ok(out);
  }

  lemma {:induction false} CleanedOneMore(hook: Hook, groups: seq<Json>, i: nat)
    requires i < |groups|
    ensures CleanedAll(hook, groups[..i + 1]) == CleanedAll(hook, groups[..i]) + Cleaned(hook, groups[i])
  {
    assert groups[..i + 1] == groups[..i] + [groups[i]];
    FlatMapSnoc(g => Cleaned(hook, g), groups[..i], groups[i]);
  }

  method CleanGroup(hook: Hook, group: Json) returns (out: seq<Json>)
    requires GroupOk(group)
    ensures out == Cleaned(hook, group)
  {
    var handlers := group.fields[HOOKS].items;
    var remaining := Others(hook, handlers);
    if |remaining| == |handlers| { return [group]; }
    out := if |remaining| > 0 then [Obj(group.fields[HOOKS := Arr(remaining)])] else [];
  }

  // ---------------------------------------------------------------- idempotent

  /** What is left of a group is left as it is. */
  lemma {:induction false} CleanedTwice(hook: Hook, group: Json)
    requires GroupOk(group)
    ensures forall g <- Cleaned(hook, group) :: GroupOk(g)
    ensures CleanedAll(hook, Cleaned(hook, group)) == Cleaned(hook, group)
  {
    var handlers := Items(EntryFields(group), HOOKS);
    var keep := (h: Json) => !IsOurs(hook, h);
    FilterMembers(keep, handlers);
    FilterAll(keep, Others(hook, handlers));
    if Cleaned(hook, group) != [] {
      var g := Cleaned(hook, group)[0];
      assert Cleaned(hook, group) == [g] && Cleaned(hook, g) == [g];
      FlatMapOne(x => Cleaned(hook, x), g);
    }
  }

  lemma {:induction false} CleanedAllTwice(hook: Hook, groups: seq<Json>)
    requires forall g <- groups :: GroupOk(g)
    ensures CleanedAll(hook, CleanedAll(hook, groups)) == CleanedAll(hook, groups)
    ensures forall g <- CleanedAll(hook, groups) :: GroupOk(g)
  {
    var c := (g: Json) => Cleaned(hook, g);
    forall i | 0 <= i < |groups|
      ensures FlatMap(c, c(groups[i])) == c(groups[i]) && forall g <- c(groups[i]) :: GroupOk(g)
    {
      assert groups[i] in groups;
      CleanedTwice(hook, groups[i]);
    }
    FlatMapTwice(c, c, c, groups);
    AllGroupsOk(c, groups);
  }

  lemma {:induction false} AllGroupsOk(c: Json -> seq<Json>, groups: seq<Json>)
    requires forall i :: 0 <= i < |groups| ==> forall g <- c(groups[i]) :: GroupOk(g)
    ensures forall g <- FlatMap(c, groups) :: GroupOk(g)
    decreases |groups|
  {
    if groups != [] { AllGroupsOk(c, groups[..|groups| - 1]); }
  }

  lemma {:induction false} OursGoes(hook: Hook, event: string)
    requires hook.isOurs(hook.command(event))
    ensures Cleaned(hook, OurGroup(hook, event)) == [] && GroupOk(OurGroup(hook, event))
    ensures IsOurs(hook, OurHandler(hook, event))
  {
    assert |MATCHER| != |HOOKS|;
    assert TYPE != COMMAND by { assert |TYPE| != |COMMAND|; }
    var handlers := [OurHandler(hook, event)];
    assert OurGroup(hook, event).fields[HOOKS] == Arr(handlers);
    FilterNone(h => !IsOurs(hook, h), handlers);
  }

  lemma {:induction false} EventSettles(hook: Hook, groups: seq<Json>, event: string)
    requires hook.Valid() && forall g <- groups :: GroupOk(g)
    ensures var r := EventGroups(hook, groups, event);
            EventGroups(hook, r, event) == r && forall g <- r :: GroupOk(g)
  {
    var clean := CleanedAll(hook, groups);
    CleanedAllTwice(hook, groups);
    if event in hook.events {
      OursGoes(hook, event);
      FlatMapSnoc(g => Cleaned(hook, g), clean, OurGroup(hook, event));
      assert clean + [] == clean;
    } else {
      assert clean + [] == clean;
    }
  }

  lemma {:induction false} Settings(hook: Hook, dataDir: string, settings: Fields)
    ensures var r := MergedSettings(hook, dataDir, settings);
            && FieldsAt(r, HOOKS) == MergedHooks(hook, FieldsAt(settings, HOOKS))
            && FieldsAt(r, ENV) == FieldsAt(settings, ENV)[DATA_DIR := Str(dataDir)]
            && (Forbidden(r) <==> Forbidden(settings))
            && HOOKS in r && r[HOOKS].Obj? && ENV in r && r[ENV].Obj?
  {
    assert |HOOKS| != |ENV| && |DISABLE| != |HOOKS| && |DISABLE| != |ENV| && |MANAGED| != |HOOKS| && |MANAGED| != |ENV|;
  }

  lemma {:induction false} HooksSettle(hook: Hook, given: Fields)
    requires hook.Valid() && forall k <- given :: GroupsOk(given[k])
    ensures var once := MergedHooks(hook, given);
            MergedHooks(hook, once) == once && forall k <- once :: GroupsOk(once[k])
  {
    var once := MergedHooks(hook, given);
    forall k <- once ensures GroupsOk(once[k]) && MergedHooks(hook, once)[k] == once[k] {
      if k in given { assert GroupsOk(given[k]); }
      EventSettles(hook, Items(given, k), k);
    }
    assert MergedHooks(hook, once).Keys == once.Keys;
  }

  /** Merging twice is merging once. */
  lemma {:induction false} MergeIsIdempotent(hook: Hook, dataDir: string, settings: Fields)
    requires hook.Valid() && Merge(hook, dataDir, settings).Ok?
    ensures Merge(hook, dataDir, Merge(hook, dataDir, settings).value) == Merge(hook, dataDir, settings)
  {
    var r := MergedSettings(hook, dataDir, settings);
    Settings(hook, dataDir, settings);
    HooksSettle(hook, FieldsAt(settings, HOOKS));
    Same(r, FieldsAt(r, ENV), dataDir);
    SettingsAgain(r, FieldsAt(r, HOOKS), FieldsAt(r, ENV));
  }

  lemma {:induction false} Same(r: Fields, env: Fields, dataDir: string)
    requires DATA_DIR in env && env[DATA_DIR] == Str(dataDir)
    ensures env[DATA_DIR := Str(dataDir)] == env
  {
  }

  lemma {:induction false} SettingsAgain(r: Fields, hooks: Fields, env: Fields)
    requires HOOKS in r && r[HOOKS] == Obj(hooks) && ENV in r && r[ENV] == Obj(env)
    ensures r[HOOKS := Obj(hooks)][ENV := Obj(env)] == r
  {
  }

  // ---------------------------------------------------------------- ours once, theirs in place

  /** A handler together with the rest of its group: its matcher and whatever else is there. */
  datatype Seated = Seated(group: Fields, handler: Json)

  function Seats(group: Json, handlers: seq<Json>): seq<Seated> {
    var rest := EntryFields(group) - {HOOKS};
    Map(h => Seated(rest, h), handlers)
  }

  function TheirsIn(hook: Hook, group: Json): seq<Seated> {
    Seats(group, Others(hook, Items(EntryFields(group), HOOKS)))
  }

  function OursIn(hook: Hook, group: Json): seq<Json> {
    Filter(h => IsOurs(hook, h), Items(EntryFields(group), HOOKS))
  }

  /** Everybody else's handlers of an event, in order. */
  function Theirs(hook: Hook, groups: seq<Json>): seq<Seated> { FlatMap(g => TheirsIn(hook, g), groups) }

  function Ours(hook: Hook, groups: seq<Json>): seq<Json> { FlatMap(g => OursIn(hook, g), groups) }

  /** Cleaning a group keeps everybody else's seats and none of ours. */
  lemma {:induction false} CleanedKeepsTheirs(hook: Hook, group: Json)
    requires GroupOk(group)
    ensures Theirs(hook, Cleaned(hook, group)) == TheirsIn(hook, group)
    ensures Ours(hook, Cleaned(hook, group)) == []
  {
    var handlers := Items(group.fields, HOOKS);
    var rest := Others(hook, handlers);
    assert
      && Others(hook, rest) == rest && Filter(h => IsOurs(hook, h), rest) == []
      && (|rest| == |handlers| ==> rest == handlers)
    by {
      OthersAreOthers(hook, handlers);
    }
    if |rest| == |handlers| {
      OneGroup(hook, group);
    } else if rest != [] {
      Trimmed(hook, group, rest);
      OneGroup(hook, Obj(group.fields[HOOKS := Arr(rest)]));
    } else {
      assert TheirsIn(hook, group) == [];
    }
  }

  lemma {:induction false} Trimmed(hook: Hook, group: Json, rest: seq<Json>)
    requires group.Obj? && Others(hook, rest) == rest && Filter(h => IsOurs(hook, h), rest) == []
    ensures var g := Obj(group.fields[HOOKS := Arr(rest)]);
            TheirsIn(hook, g) == Seats(group, rest) && OursIn(hook, g) == []
  {
    assert group.fields[HOOKS := Arr(rest)] - {HOOKS} == group.fields - {HOOKS};
  }

  lemma {:induction false} OneGroup(hook: Hook, group: Json)
    ensures Theirs(hook, [group]) == TheirsIn(hook, group) && Ours(hook, [group]) == OursIn(hook, group)
  {
    FlatMapOne(x => TheirsIn(hook, x), group);
    FlatMapOne(x => OursIn(hook, x), group);
  }

  lemma {:induction false} OthersAreOthers(hook: Hook, handlers: seq<Json>)
    ensures var rest := Others(hook, handlers);
            && Others(hook, rest) == rest && Filter(h => IsOurs(hook, h), rest) == []
            && (|rest| == |handlers| ==> rest == handlers)
  {
    var keep := (h: Json) => !IsOurs(hook, h);
    FilterLength(keep, handlers);
    if |Others(hook, handlers)| == |handlers| { FilterAll(keep, handlers); }
    FilterMembers(keep, handlers);
    FilterNone(h => IsOurs(hook, h), Others(hook, handlers));
    FilterAll(keep, Others(hook, handlers));
  }

  lemma {:induction false} CleanedAllKeepsTheirs(hook: Hook, groups: seq<Json>)
    requires forall g <- groups :: GroupOk(g)
    ensures Theirs(hook, CleanedAll(hook, groups)) == Theirs(hook, groups)
    ensures Ours(hook, CleanedAll(hook, groups)) == []
  {
    var c, theirs, ours := (g: Json) => Cleaned(hook, g), (g: Json) => TheirsIn(hook, g), (g: Json) => OursIn(hook, g);
    var none: Json -> seq<Json> := (g: Json) => [];
    forall i | 0 <= i < |groups|
      ensures FlatMap(theirs, c(groups[i])) == theirs(groups[i]) && FlatMap(ours, c(groups[i])) == none(groups[i])
    {
      assert groups[i] in groups;
      CleanedKeepsTheirs(hook, groups[i]);
    }
    FlatMapTwice(theirs, c, theirs, groups);
    FlatMapTwice(ours, c, none, groups);
    FlatMapNone(none, groups);
  }

  lemma {:induction false} FlatMapNone(none: Json -> seq<Json>, groups: seq<Json>)
    requires forall g :: none(g) == []
    ensures FlatMap(none, groups) == []
    decreases |groups|
  {
    if groups != [] { FlatMapNone(none, groups[..|groups| - 1]); }
  }

  /** After the merge every event of ours has exactly one handler of ours, no other event has any,
      and of everybody else's handlers none is lost, moved or put under another matcher. */
  lemma {:induction false} OneOfOursAllOfTheirs(hook: Hook, dataDir: string, settings: Fields, event: string)
    requires hook.Valid() && Merge(hook, dataDir, settings).Ok?
    ensures var before := Items(FieldsAt(settings, HOOKS), event);
            var after := Items(FieldsAt(Merge(hook, dataDir, settings).value, HOOKS), event);
            && Theirs(hook, after) == Theirs(hook, before)
            && Ours(hook, after) == if event in hook.events then [OurHandler(hook, event)] else []
  {
    var given := FieldsAt(settings, HOOKS);
    var before := Items(given, event);
    Settings(hook, dataDir, settings);
    if event in given { assert GroupsOk(given[event]); }
    CleanedAllKeepsTheirs(hook, before);
    EventSeats(hook, CleanedAll(hook, before), event);
    var known := event in given || event in hook.events;
    assert Items(MergedHooks(hook, given), event) == if known then EventGroups(hook, before, event) else [];
  }

  lemma {:induction false} EventSeats(hook: Hook, clean: seq<Json>, event: string)
    requires hook.Valid() && Ours(hook, clean) == []
    ensures var after := clean + if event in hook.events then [OurGroup(hook, event)] else [];
            && Theirs(hook, after) == Theirs(hook, clean)
            && Ours(hook, after) == if event in hook.events then [OurHandler(hook, event)] else []
  {
    if event in hook.events {
      OursGoes(hook, event);
      OursAlone(hook, event);
      FlatMapSnoc(g => TheirsIn(hook, g), clean, OurGroup(hook, event));
      FlatMapSnoc(g => OursIn(hook, g), clean, OurGroup(hook, event));
    } else {
      assert clean + [] == clean;
    }
  }

  lemma {:induction false} OursAlone(hook: Hook, event: string)
    requires IsOurs(hook, OurHandler(hook, event))
    ensures TheirsIn(hook, OurGroup(hook, event)) == []
    ensures OursIn(hook, OurGroup(hook, event)) == [OurHandler(hook, event)]
  {
    var handlers := [OurHandler(hook, event)];
    assert |MATCHER| != |HOOKS|;
    assert Items(OurGroup(hook, event).fields, HOOKS) == handlers;
    FilterNone(h => !IsOurs(hook, h), handlers);
    FilterAll(h => IsOurs(hook, h), handlers);
  }

  // ---------------------------------------------------------------- when, and what else, it writes

  predicate Says(settings: Fields, key: string, value: Json) { key in settings && settings[key] == value }

  /** A list of groups, each with a list of handlers that are objects. */
  predicate IsGroupList(v: Json) {
    v.Arr? && forall i :: 0 <= i < |v.items| ==> IsGroup(v.items[i])
  }

  predicate IsGroup(g: Json) {
    && g.Obj? && "hooks" in g.fields && g.fields["hooks"].Arr?
    && forall i :: 0 <= i < |g.fields["hooks"].items| ==> g.fields["hooks"].items[i].Obj?
  }

  predicate AllGroupLists(hooks: Fields) { forall event <- hooks :: IsGroupList(hooks[event]) }

  lemma {:induction false} GroupListIs(v: Json)
    ensures GroupsOk(v) <==> IsGroupList(v)
  {
    if v.Arr? {
      forall i | 0 <= i < |v.items| ensures GroupOk(v.items[i]) <==> IsGroup(v.items[i]) {
        GroupIs(v.items[i]);
        assert v.items[i] in v.items;
      }
    }
  }

  lemma {:induction false} GroupIs(g: Json)
    ensures GroupOk(g) <==> IsGroup(g)
  {
    if IsGroup(g) {
      forall h | h in g.fields["hooks"].items ensures h.Obj? {
        var i :| 0 <= i < |g.fields["hooks"].items| && g.fields["hooks"].items[i] == h;
      }
    }
  }

  /** The settings are refused when they forbid hooks by policy, and else when hooks or environment
      are no objects, or an event's value is no list of groups of handlers. */
  lemma {:induction false} RefusedIff(hook: Hook, dataDir: string, settings: Fields)
    ensures var forbidden := || Says(settings, "disableAllHooks", Bool(true))
                             || Says(settings, "allowManagedHooksOnly", Bool(true));
            var malformed := || ("hooks" in settings && !settings["hooks"].Obj?)
                             || ("env" in settings && !settings["env"].Obj?)
                             || ("hooks" in settings && settings["hooks"].Obj? && !AllGroupLists(settings["hooks"].fields));
            && (Merge(hook, dataDir, settings) == Err(PolicyForbids) <==> forbidden)
            && (Merge(hook, dataDir, settings) == Err(Malformed) <==> !forbidden && malformed)
  {
    if "hooks" in settings && settings["hooks"].Obj? {
      forall event | event in settings["hooks"].fields
        ensures GroupsOk(settings["hooks"].fields[event]) <==> IsGroupList(settings["hooks"].fields[event])
      {
        GroupListIs(settings["hooks"].fields[event]);
      }
    }
  }

  /** The rest of what is written: every other setting and environment variable as it was, our
      data directory, and for each event of ours, behind the groups that stay, one group with our
      matcher and our command. */
  lemma {:induction false} WhatIsWritten(hook: Hook, dataDir: string, settings: Fields, key: string, event: string)
    requires Merge(hook, dataDir, settings).Ok?
    ensures var r := Merge(hook, dataDir, settings).value;
            && (key != "hooks" && key != "env" ==> Find(r, key) == Find(settings, key))
            && Find(FieldsAt(r, "env"), key)
                 == (if key == "LOONGSUITE_PILOT_DATA_DIR" then Some(Str(dataDir))
                     else Find(FieldsAt(settings, "env"), key))
            && (event in hook.events ==>
                  Items(FieldsAt(r, "hooks"), event)
                    == CleanedAll(hook, Items(FieldsAt(settings, "hooks"), event))
                       + [Obj(map["matcher" := Str(hook.matcher(event)),
                                  "hooks" := Arr([Obj(map["type" := Str("command"),
                                                          "command" := Str(hook.command(event))])])])])
            && (event !in hook.events && event !in FieldsAt(settings, "hooks") ==> event !in FieldsAt(r, "hooks"))
  {
    Settings(hook, dataDir, settings);
    assert |HOOKS| != |ENV|;
  }

  /** A group is kept as it is if none of its handlers is ours, and goes if all are; an empty group
      was empty before. */
  lemma {:induction false} CleanedIs(hook: Hook, group: Json)
    requires IsGroup(group)
    ensures var handlers := group.fields["hooks"].items;
            && ((forall h <- handlers :: !IsOurs(hook, h)) ==> Cleaned(hook, group) == [group])
            && (handlers != [] && (forall h <- handlers :: IsOurs(hook, h)) ==> Cleaned(hook, group) == [])
            && (forall g <- Cleaned(hook, group) :: g != group ==>
                  && g.Obj? && g.fields == group.fields["hooks" := Arr(Others(hook, handlers))]
                  && Others(hook, handlers) != [])
  {
    var handlers := group.fields["hooks"].items;
    FilterLength(h => !IsOurs(hook, h), handlers);
    if forall h <- handlers :: IsOurs(hook, h) { FilterNone(h => !IsOurs(hook, h), handlers); }
  }

  /** A handler is ours by its command alone. */
  lemma {:induction false} OursByCommand(hook: Hook, fields: Fields, command: string)
    requires "command" in fields && fields["command"] == Str(command)
    ensures IsOurs(hook, Obj(fields)) <==> hook.isOurs(command)
  {
  }
}
