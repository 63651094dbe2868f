/** The deployment records that several processes share in one file. A save, under the lock, lays
    only the records that this process changed over what is on disk, and unites the settings paths.

    Resolving a path and telling a blank one are functions of the platform. */
module DeployedState {
  import opened Wrappers

  datatype Record = Record(
    hookSettingsPath: Option<string>,
    hookSettingsPaths: Option<seq<string>>,
    rest: map<string, string>)
  {
    function Paths(): seq<string> { hookSettingsPaths.GetOr([]) }
  }

  type Records = map<string, Record>

  datatype Platform = Platform(resolve: string -> string, blank: string -> bool) {
    /** A resolved path is absolute: resolving it again changes nothing. */
    ghost predicate Valid() {
      forall v: string :: resolve(resolve(v)) == resolve(v) && !blank(resolve(v))
    }
  }

  function Maybe(path: Option<string>): seq<string> { if path.Some? then [path.value] else [] }

  // ---------------------------------------------------------------- settings paths

  /** The first `n` paths resolved, each once, in the order of first occurrence. */
  function United(pf: Platform, paths: seq<string>, n: nat): seq<string>
    requires n <= |paths|
  {
    if n == 0 then []
    else
      var out := United(pf, paths, n - 1);
      var resolved := pf.resolve(paths[n - 1]);
      if pf.blank(paths[n - 1]) || resolved in out then out else out + [resolved]
  }

  /** `mergeHookSettingsPaths`. */
  method MergeHookSettingsPaths(pf: Platform, paths: seq<string>, path: Option<string>) returns (out: seq<string>)
    ensures out == United(pf, paths + Maybe(path), |paths + Maybe(path)|)
  {
    var all := paths + Maybe(path);
    var seen: set<string> := {};
    out := [];
    for i := 0 to |all|
      invariant out == United(pf, all, i)
      invariant forall x :: x in seen <==> x in out
    {
      var value := all[i];
      if pf.blank(value) { continue; }
      var resolved := pf.resolve(value);
      if resolved in seen { continue; }
      seen := seen + {resolved};
      out := out + [resolved];
    }
  }

  /** What the paths stand for. */
  function Known(pf: Platform, paths: seq<string>): set<string> {
    set i | 0 <= i < |paths| && !pf.blank(paths[i]) :: pf.resolve(paths[i])
  }

  predicate DistinctPaths(paths: seq<string>) { forall i, k :: 0 <= i < k < |paths| ==> paths[i] != paths[k] }

  /** Uniting keeps every path, each once. */
  lemma {:induction false} UnitedIsKnown(pf: Platform, paths: seq<string>, n: nat)
    requires n <= |paths|
    ensures forall x :: x in United(pf, paths, n) <==> x in Known(pf, paths[..n])
    ensures DistinctPaths(United(pf, paths, n))
  {
    if n > 0 {
      UnitedIsKnown(pf, paths, n - 1);
      KnownSnoc(pf, paths[..n - 1], paths[n - 1]);
      assert paths[..n - 1] + [paths[n - 1]] == paths[..n];
    }
  }

  /** Path `i` stands for `a`, and none up to it stands for `b`. */
  predicate FirstOfTwo(pf: Platform, paths: seq<string>, i: nat, a: string, b: string)
    requires i < |paths|
  {
    && !pf.blank(paths[i]) && pf.resolve(paths[i]) == a
    && forall k :: 0 <= k <= i ==> pf.blank(paths[k]) || pf.resolve(paths[k]) != b
  }

  /** And in the order in which they first come up. */
  lemma {:induction false} UnitedIsInOrder(pf: Platform, paths: seq<string>, n: nat, a: nat, b: nat)
    requires n <= |paths| && a < b < |United(pf, paths, n)|
    ensures exists i :: 0 <= i < n && FirstOfTwo(pf, paths, i, United(pf, paths, n)[a], United(pf, paths, n)[b])
  {
    var before, now := United(pf, paths, n - 1), United(pf, paths, n);
    UnitedIsKnown(pf, paths, n - 1);
    if b < |before| {
      UnitedIsInOrder(pf, paths, n - 1, a, b);
      var i :| 0 <= i < n - 1 && FirstOfTwo(pf, paths, i, before[a], before[b]);
      assert FirstOfTwo(pf, paths, i, now[a], now[b]);
    } else {
      assert before[a] in Known(pf, paths[..n - 1]) && now[b] !in Known(pf, paths[..n - 1]);
      var i :| 0 <= i < n - 1 && !pf.blank(paths[..n - 1][i]) && pf.resolve(paths[..n - 1][i]) == before[a];
      forall k | 0 <= k <= i ensures pf.blank(paths[k]) || pf.resolve(paths[k]) != now[b] {
        assert paths[..n - 1][k] == paths[k];
      }
      assert FirstOfTwo(pf, paths, i, now[a], now[b]);
    }
  }

  lemma {:induction false} KnownSnoc(pf: Platform, paths: seq<string>, last: string)
    ensures Known(pf, paths + [last]) == Known(pf, paths) + if pf.blank(last) then {} else {pf.resolve(last)}
  {
    KnownAppend(pf, paths, [last]);
    assert Known(pf, [last]) == if pf.blank(last) then {} else {pf.resolve(last)} by {
      assert [last][0] == last;
    }
  }

  lemma {:induction false} KnownAppend(pf: Platform, a: seq<string>, b: seq<string>)
    ensures Known(pf, a + b) == Known(pf, a) + Known(pf, b)
  {
    var all := a + b;
    forall x | x in Known(pf, a) ensures x in Known(pf, all) {
      var i :| 0 <= i < |a| && !pf.blank(a[i]) && pf.resolve(a[i]) == x;
      assert all[i] == a[i];
    }
    forall x | x in Known(pf, b) ensures x in Known(pf, all) {
      var i :| 0 <= i < |b| && !pf.blank(b[i]) && pf.resolve(b[i]) == x;
      assert all[|a| + i] == b[i];
    }
  }

  /** Resolved paths stand for themselves. */
  lemma {:induction false} ResolvedIsKnown(pf: Platform, paths: seq<string>, n: nat)
    requires pf.Valid() && n <= |paths|
    ensures Known(pf, United(pf, paths, n)) == Known(pf, paths[..n])
  {
    var out := United(pf, paths, n);
    UnitedIsKnown(pf, paths, n);
    forall i | 0 <= i < |out| ensures pf.resolve(out[i]) == out[i] && !pf.blank(out[i]) {
      assert out[i] in Known(pf, paths[..n]);
      var k :| 0 <= k < n && !pf.blank(paths[..n][k]) && pf.resolve(paths[..n][k]) == out[i];
      assert pf.resolve(pf.resolve(paths[k])) == pf.resolve(paths[k]);
    }
  }

  // ---------------------------------------------------------------- one record

  function AllPaths(previous: Option<Record>, next: Record): seq<string> {
    (if previous.Some? then previous.value.Paths() + Maybe(previous.value.hookSettingsPath) else [])
      + next.Paths() + Maybe(PathOf(previous, next))
  }

  function PathOf(previous: Option<Record>, next: Record): Option<string> {
    if next.hookSettingsPath.Some? then next.hookSettingsPath
    else if previous.Some? then previous.value.hookSettingsPath else None
  }

  function Laid(pf: Platform, previous: Option<Record>, next: Record): Record {
    var all := AllPaths(previous, next);
    var paths := United(pf, all, |all|);
    Record(
      PathOf(previous, next),
      if paths != [] then Some(paths)
      else if next.hookSettingsPaths.Some? then next.hookSettingsPaths
      else if previous.Some? then previous.value.hookSettingsPaths else None,
      (if previous.Some? then previous.value.rest else map[]) + next.rest)
  }

  /** The settings paths that a record stands for. */
  function PathsOf(pf: Platform, r: Record): set<string> { Known(pf, r.Paths() + Maybe(r.hookSettingsPath)) }

  /** The record names this path, in its one field or in its list. */
  predicate NamesPath(pf: Platform, r: Record, path: string) {
    || (r.hookSettingsPath.Some? && !pf.blank(r.hookSettingsPath.value) && pf.resolve(r.hookSettingsPath.value) == path)
    || (r.hookSettingsPaths.Some? && exists i ::
          0 <= i < |r.hookSettingsPaths.value| && !pf.blank(r.hookSettingsPaths.value[i])
          && pf.resolve(r.hookSettingsPaths.value[i]) == path)
  }

  lemma {:induction false} PathsOfMeans(pf: Platform, r: Record, path: string)
    ensures path in PathsOf(pf, r) <==> NamesPath(pf, r, path)
  {
    KnownAppend(pf, r.Paths(), Maybe(r.hookSettingsPath));
    if r.hookSettingsPath.Some? { assert Maybe(r.hookSettingsPath)[0] == r.hookSettingsPath.value; }
  }

  /** Field by field the newer record wins; what it leaves out stays as it was. */
  lemma {:induction false} LaidIsNextOverPrevious(pf: Platform, previous: Option<Record>, next: Record, key: string)
    ensures var r := Laid(pf, previous, next);
            && (next.hookSettingsPath.Some? ==> r.hookSettingsPath == next.hookSettingsPath)
            && (next.hookSettingsPath.None? && previous.Some? ==> r.hookSettingsPath == previous.value.hookSettingsPath)
            && (next.hookSettingsPath.None? && previous.None? ==> r.hookSettingsPath == None)
            && (key in next.rest ==> Find(r.rest, key) == Some(next.rest[key]))
            && (key !in next.rest && previous.Some? ==> Find(r.rest, key) == Find(previous.value.rest, key))
            && (key !in next.rest && previous.None? ==> key !in r.rest)
    ensures var r := Laid(pf, previous, next);
            Known(pf, AllPaths(previous, next)) == {} ==>
              && (next.hookSettingsPaths.Some? ==> r.hookSettingsPaths == next.hookSettingsPaths)
              && (next.hookSettingsPaths.None? && previous.Some? ==>
                    r.hookSettingsPaths == previous.value.hookSettingsPaths)
              && (next.hookSettingsPaths.None? && previous.None? ==> r.hookSettingsPaths == None)
  {
    var all := AllPaths(previous, next);
    var paths := United(pf, all, |all|);
    UnitedIsKnown(pf, all, |all|);
    assert all[..|all|] == all;
    if paths != [] { assert paths[0] in paths; }
  }

  /** No settings path of either record is lost, and none is made up. */
  lemma {:induction false} LaidKeepsPaths(pf: Platform, previous: Option<Record>, next: Record)
    requires pf.Valid()
    ensures PathsOf(pf, Laid(pf, previous, next))
         == (if previous.Some? then PathsOf(pf, previous.value) else {}) + PathsOf(pf, next)
  {
    var all := AllPaths(previous, next);
    var paths := United(pf, all, |all|);
    var r := Laid(pf, previous, next);
    assert all[..|all|] == all;
    ResolvedIsKnown(pf, all, |all|);
    UnitedIsKnown(pf, all, |all|);
    KnownAppend(pf, r.Paths(), Maybe(r.hookSettingsPath));
    KnownAppend(pf, next.Paths(), Maybe(next.hookSettingsPath));
    AllPathsKnown(pf, previous, next);
    if paths == [] { assert Known(pf, all) == {}; }
  }

  lemma {:induction false} AllPathsKnown(pf: Platform, previous: Option<Record>, next: Record)
    ensures Known(pf, AllPaths(previous, next))
         == (if previous.Some? then PathsOf(pf, previous.value) else {}) + PathsOf(pf, next)
    ensures Known(pf, Maybe(PathOf(previous, next))) <= Known(pf, AllPaths(previous, next))
    ensures Known(pf, next.Paths()) <= Known(pf, AllPaths(previous, next))
    ensures previous.Some? ==> Known(pf, previous.value.Paths()) <= Known(pf, AllPaths(previous, next))
  {
    var before := if previous.Some? then previous.value.Paths() + Maybe(previous.value.hookSettingsPath) else [];
    KnownAppend(pf, before + next.Paths(), Maybe(PathOf(previous, next)));
    KnownAppend(pf, before, next.Paths());
    KnownAppend(pf, next.Paths(), Maybe(next.hookSettingsPath));
    if previous.Some? { KnownAppend(pf, previous.value.Paths(), Maybe(previous.value.hookSettingsPath)); }
  }

  // ---------------------------------------------------------------- the whole file

  /** `mergeDeployedAgentsState`. */
  function Merged(pf: Platform, disk: Records, memory: Records, touched: set<string>): Records {
    map id | id in disk.Keys + memory.Keys && (id in touched ==> id in memory) && (id !in touched ==> id in disk) ::
      if id in touched then Laid(pf, Find(disk, id), memory[id]) else disk[id]
  }

  method MergeDeployedAgentsState(pf: Platform, disk: Records, memory: Records, touched: set<string>)
    returns (merged: Records)
    ensures merged == Merged(pf, disk, memory, touched)
  {
    merged := disk;
    var rest := touched;
    NothingTouched(pf, disk, memory);
    while rest != {}
      invariant rest <= touched
      invariant merged == Merged(pf, disk, memory, touched - rest)
      decreases rest
    {
      var id :| id in rest;
      OneMoreTouched(pf, disk, memory, touched - rest, id);
      assert touched - (rest - {id}) == touched - rest + {id};
      rest := rest - {id};
      if id !in memory {
        merged := merged - {id};
      } else {
        var next := memory[id];
        var record := LayRecord(pf, Find(disk, id), next);
        merged := merged[id := record];
      }
    }
    assert touched - rest == touched;
  }

  lemma {:induction false} NothingTouched(pf: Platform, disk: Records, memory: Records)
    ensures Merged(pf, disk, memory, {}) == disk
  {
  }

  lemma {:induction false} OneMoreTouched(pf: Platform, disk: Records, memory: Records, touched: set<string>,
        id: string)
    requires id !in touched
    ensures var merged := Merged(pf, disk, memory, touched);
            Merged(pf, disk, memory, touched + {id})
              == if id in memory then merged[id := Laid(pf, Find(disk, id), memory[id])] else merged - {id}
  {
    var x := Merged(pf, disk, memory, touched + {id});
    var merged := Merged(pf, disk, memory, touched);
    forall k | k != id ensures Find(x, k) == Find(merged, k) {}
    if id in memory {
      SameRecords(x, merged[id := x[id]]);
    } else {
      SameRecords(x, merged - {id});
    }
  }

  method LayRecord(pf: Platform, previous: Option<Record>, next: Record) returns (r: Record)
    ensures r == Laid(pf, previous, next)
  {
    var known := if previous.Some? then previous.value.Paths() + Maybe(previous.value.hookSettingsPath) else [];
    var path := if next.hookSettingsPath.Some? then next.hookSettingsPath
                else if previous.Some? then previous.value.hookSettingsPath else None;
    var paths := MergeHookSettingsPaths(pf, known + next.Paths(), path);
    r := Record(path, if next.hookSettingsPaths.Some? then next.hookSettingsPaths
                      else if previous.Some? then previous.value.hookSettingsPaths else None,
                (if previous.Some? then previous.value.rest else map[]) + next.rest);
    if |paths| > 0 { r := r.(hookSettingsPaths := Some(paths)); }
  }

  /** A save says nothing about records that it did not change. */
  lemma {:induction false} UntouchedIsKept(pf: Platform, disk: Records, memory: Records, touched: set<string>,
        id: string)
    requires id !in touched
    ensures Find(Merged(pf, disk, memory, touched), id) == Find(disk, id)
  {
  }

  /** Saves of disjoint changes commute. */
  lemma {:induction false} DisjointSavesCommute(pf: Platform, disk: Records, m1: Records, t1: set<string>,
        m2: Records, t2: set<string>)
    requires t1 !! t2
    ensures Merged(pf, Merged(pf, disk, m1, t1), m2, t2) == Merged(pf, Merged(pf, disk, m2, t2), m1, t1)
  {
    var a, b := Merged(pf, disk, m1, t1), Merged(pf, disk, m2, t2);
    var x, y := Merged(pf, a, m2, t2), Merged(pf, b, m1, t1);
    forall id ensures Find(x, id) == Find(y, id) {
      if id in t1 {
        assert Find(b, id) == Find(disk, id);
      } else if id in t2 {
        assert Find(a, id) == Find(disk, id);
      }
    }
    SameRecords(x, y);
  }

  lemma {:induction false} SameRecords(x: Records, y: Records)
    requires forall id :: Find(x, id) == Find(y, id)
    ensures x == y
  {
    forall id | id in x || id in y ensures id in x && id in y && x[id] == y[id] {
      assert Find(x, id) == Find(y, id);
    }
  }

  // ---------------------------------------------------------------- many processes

  /** A process: its records, what it last loaded or saved, and the ids it touched. */
  datatype Process = Process(state: Records, loaded: Records, touched: set<string>)

  function ChangedIds(p: Process): set<string> {
    p.touched + set id | id in p.loaded.Keys + p.state.Keys && Find(p.loaded, id) != Find(p.state, id)
  }

  /** `deployed-agents.json` and the processes; the lock makes a save one step. */
  datatype World = World(disk: Records, procs: seq<Process>)

  datatype Step =
    | Load(p: nat)
    | Change(p: nat, id: string, record: Option<Record>, touch: bool)
    | Save(p: nat)

  function Changed(p: Process, id: string, record: Option<Record>, touch: bool): Process {
    p.(state := if record.Some? then p.state[id := record.value] else p.state - {id},
       touched := if touch then p.touched + {id} else p.touched)
  }

  function Next(pf: Platform, w: World, step: Step): World {
    if step.p >= |w.procs| then w
    else
      match step
      case Load(p) => w.(procs := w.procs[p := Process(w.disk, w.disk, {})])
      case Change(p, id, record, touch) => w.(procs := w.procs[p := Changed(w.procs[p], id, record, touch)])
      case Save(p) =>
        var merged := Merged(pf, w.disk, w.procs[p].state, ChangedIds(w.procs[p]));
        World(merged, w.procs[p := Process(merged, merged, {})])
  }

  function Run(pf: Platform, w: World, steps: seq<Step>): World
    decreases |steps|
  {
    if steps == [] then w else Run(pf, Next(pf, w, steps[0]), steps[1..])
  }

  class DeploymentManager {
    const pf: Platform
    var state: Records
    var loadedState: Records
    var touchedIds: set<string>

    ghost function Value(): Process
      reads this
    {
      Process(state, loadedState, touchedIds)
    }

    constructor (pf: Platform)
      ensures this.pf == pf && Value() == Process(map[], map[], {})
    {
      this.pf := pf;
      state, loadedState, touchedIds := map[], map[], {};
    }

    method LoadState(file: Option<Records>)
      modifies this
      ensures var disk := file.GetOr(map[]); Value() == Process(disk, disk, {})
    {
      state := if file.Some? then file.value else map[];
      loadedState := state;
      touchedIds := {};
    }

    method Changes() returns (ids: set<string>)
      ensures ids == ChangedIds(Value())
    {
      ids := touchedIds;
      var keys := loadedState.Keys + state.Keys;
      var rest := keys;
      while rest != {}
        invariant rest <= keys
        invariant ids == touchedIds + set id | id in keys - rest && Find(loadedState, id) != Find(state, id)
        decreases rest
      {
        var id :| id in rest;
        rest := rest - {id};
        if Find(loadedState, id) != Find(state, id) { ids := ids + {id}; }
      }
      assert keys - rest == keys;
    }

    /** The body of `saveState` under the lock: what it reads and what it writes. */
    method SaveState(file: Option<Records>) returns (written: Records)
      modifies this
      ensures written == Merged(pf, file.GetOr(map[]), old(state), ChangedIds(old(Value())))
      ensures Value() == Process(written, written, {})
    {
      var disk := if file.Some? then file.value else map[];
      var ids := Changes();
      written := MergeDeployedAgentsState(pf, disk, state, ids);
      state, loadedState, touchedIds := written, written, {};
    }
  }

  /** The record of `id` is on disk throughout the run. */
  predicate Survives(pf: Platform, w: World, steps: seq<Step>, id: string)
    decreases |steps|
  {
    id in w.disk && (steps != [] ==> Survives(pf, Next(pf, w, steps[0]), steps[1..], id))
  }

  /** Whatever any number of processes load, change and save: as long as a record stays on disk, no
      settings path that it ever stood for is lost. */
  lemma {:induction false} RecordedPathsStay(pf: Platform, w: World, steps: seq<Step>, id: string, path: string)
    requires pf.Valid() && Survives(pf, w, steps, id) && path in PathsOf(pf, w.disk[id])
    ensures var v := Run(pf, w, steps); id in v.disk && path in PathsOf(pf, v.disk[id])
    decreases |steps|
  {
    if steps != [] {
      var v := Next(pf, w, steps[0]);
      if steps[0].Save? && steps[0].p < |w.procs| {
        var p := w.procs[steps[0].p];
        if id in ChangedIds(p) {
          LaidKeepsPaths(pf, Find(w.disk, id), p.state[id]);
        } else {
          UntouchedIsKept(pf, w.disk, p.state, ChangedIds(p), id);
        }
      }
      RecordedPathsStay(pf, v, steps[1..], id, path);
    }
  }

  /** A process leaves alone, in memory and on disk, every record it did not change since it loaded:
      its save writes what others have saved meanwhile. */
  lemma {:induction false} SaveKeepsOthersWork(pf: Platform, w: World, p: nat, id: string)
    requires p < |w.procs| && id !in w.procs[p].touched && Find(w.procs[p].state, id) == Find(w.procs[p].loaded, id)
    ensures Find(Next(pf, w, Save(p)).disk, id) == Find(w.disk, id)
    ensures Find(Next(pf, w, Save(p)).procs[p].state, id) == Find(w.disk, id)
  {
    assert id !in ChangedIds(w.procs[p]);
    UntouchedIsKept(pf, w.disk, w.procs[p].state, ChangedIds(w.procs[p]), id);
  }

  /** A record after process `p` saved its own version of it, or its deletion. */
  function Own(pf: Platform, disk: Records, id: string, record: Option<Record>): Option<Record> {
    match record
    case None => None
    case Some(r) => Some(Laid(pf, Find(disk, id), r))
  }

  /** What a process touched, or has otherwise than it loaded it, comes out of its save as its own:
      laid over what is on disk, or gone. */
  lemma {:induction false} SaveWritesOwnWork(pf: Platform, w: World, p: nat, id: string)
    requires p < |w.procs|
    requires id in w.procs[p].touched || Find(w.procs[p].state, id) != Find(w.procs[p].loaded, id)
    ensures Find(Next(pf, w, Save(p)).disk, id) == Own(pf, w.disk, id, Find(w.procs[p].state, id))
    ensures Find(Next(pf, w, Save(p)).procs[p].state, id) == Own(pf, w.disk, id, Find(w.procs[p].state, id))
  {
    assert id in ChangedIds(w.procs[p]);
  }

  /** From a change to the save: the change is saved if it was marked or is one at all, and no
      other record is saved because of it. */
  lemma {:induction false} ChangeIsSaved(pf: Platform, w: World, p: nat, id: string, record: Option<Record>,
        touch: bool, other: string)
    requires p < |w.procs| && other != id
    ensures var v := Next(pf, Next(pf, w, Change(p, id, record, touch)), Save(p));
            && Find(v.disk, id) == (if touch || id in w.procs[p].touched || record != Find(w.procs[p].loaded, id)
                                    then Own(pf, w.disk, id, record) else Find(w.disk, id))
            && Find(v.disk, other) == Find(Next(pf, w, Save(p)).disk, other)
  {
    var c := Next(pf, w, Change(p, id, record, touch));
    assert Find(c.procs[p].state, id) == record;
    assert Find(c.procs[p].state, other) == Find(w.procs[p].state, other);
    if touch || id in w.procs[p].touched || record != Find(w.procs[p].loaded, id) {
      SaveWritesOwnWork(pf, c, p, id);
    } else {
      SaveKeepsOthersWork(pf, c, p, id);
    }
    if other in w.procs[p].touched || Find(w.procs[p].state, other) != Find(w.procs[p].loaded, other) {
      SaveWritesOwnWork(pf, w, p, other);
      SaveWritesOwnWork(pf, c, p, other);
    } else {
      SaveKeepsOthersWork(pf, w, p, other);
      SaveKeepsOthersWork(pf, c, p, other);
    }
  }
}
