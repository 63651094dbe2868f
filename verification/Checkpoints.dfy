/** The checkpoint store: the inputs' states in memory, revision counters that say which of
    them are on disk, a set of holds that postpone saving, a sticky failure, and one flush loop.

    A stretch of code between two awaits is one step. `Store` is the store's state as a value and
    the functions on it are the steps; the class below takes the same steps on its fields.
    A promise is named by a number. `extra` values are compared as strings. */
module Checkpoints {
  import opened Wrappers

  type Extra = map<string, string>

  datatype InputState = InputState(lastOffset: Option<nat>, fields: map<string, string>, extra: Option<Extra>) {
    function ExtraKeys(): Extra { extra.GetOr(map[]) }
    function Offset(): nat { lastOffset.GetOr(0) }
  }

  const EMPTY := InputState(None, map[], None)

  type States = map<string, InputState>

  /** Where the flush loop stands. `Exiting` is the time between the end of the loop and the
      `finally` that clears the save promise. */
  datatype Phase =
    | Idle
    | Awaiting(awaited: set<nat>)
    | Writing(target: nat, snapshot: States)
    | Exiting(resolved: bool)

  datatype Store = Store(
    states: States,
    revision: nat,
    persistedRevision: nat,
    inputRevisions: map<string, nat>,
    extraRevisions: map<string, map<string, nat>>,
    saveHolds: set<nat>,
    saveFailed: bool,
    phase: Phase)

  const FRESH := Store(map[], 0, 0, map[], map[], {}, false, Idle)

  // ---------------------------------------------------------------- lookups

  function Get(states: States, id: string): InputState {
    if id in states then states[id] else EMPTY
  }

  function FindExtra(states: States, id: string, key: string): Option<string> {
    Find(Get(states, id).ExtraKeys(), key)
  }

  function ExtraRevision(revisions: map<string, map<string, nat>>, id: string, key: string): nat {
    if id in revisions && key in revisions[id] then revisions[id][key] else 0
  }

  predicate InputIsPersisted(s: Store, id: string) {
    !s.saveFailed && Find(s.inputRevisions, id).GetOr(0) <= s.persistedRevision
  }

  predicate ExtraIsPersisted(s: Store, id: string, key: string) {
    !s.saveFailed && ExtraRevision(s.extraRevisions, id, key) <= s.persistedRevision
  }

  // ---------------------------------------------------------------- changes

  function Changed(before: Extra, after: Extra): set<string> {
    set k | k in before.Keys + after.Keys && Find(before, k) != Find(after, k)
  }

  /** Every key of `keys` under `id` stamped with `revision`. */
  function Stamped(revisions: map<string, map<string, nat>>, id: string, keys: set<string>, revision: nat)
    : map<string, map<string, nat>>
  {
    if keys == {} then revisions
    else revisions[id := Find(revisions, id).GetOr(map[]) + map k | k in keys :: revision]
  }

  function Recorded(s: Store, states: States, id: string, next: InputState): Store {
    var before := Get(s.states, id).ExtraKeys();
    s.(states := states,
       revision := s.revision + 1,
       inputRevisions := s.inputRevisions[id := s.revision + 1],
       extraRevisions := Stamped(s.extraRevisions, id, Changed(before, next.ExtraKeys()), s.revision + 1))
  }

  function Merged(current: InputState, partial: InputState): InputState {
    InputState(
      if partial.lastOffset.Some? then partial.lastOffset else current.lastOffset,
      current.fields + partial.fields,
      if partial.extra.None? then current.extra
      else if current.extra.None? then partial.extra
      else Some(current.extra.value + partial.extra.value))
  }

  function SetStep(s: Store, id: string, state: InputState): Store {
    Recorded(s, s.states[id := state], id, state)
  }

  function UpdateStep(s: Store, id: string, partial: InputState): Store {
    SetStep(s, id, Merged(Get(s.states, id), partial))
  }

  function DeleteStep(s: Store, id: string): Store {
    if id in s.states then Recorded(s, s.states - {id}, id, EMPTY) else s
  }

  // ---------------------------------------------------------------- holds and saving

  function HoldStep(s: Store, promise: nat): Store { s.(saveHolds := s.saveHolds + {promise}) }

  function SettleStep(s: Store, promise: nat, accepted: bool): Store {
    s.(saveHolds := s.saveHolds - {promise}, saveFailed := s.saveFailed || !accepted)
  }

  /** The head of the flush loop, up to the next await. */
  function LoopStep(s: Store): Store {
    if s.saveFailed then s.(phase := Exiting(false))
    else if s.saveHolds != {} then s.(phase := Awaiting(s.saveHolds))
    else if s.persistedRevision >= s.revision then s.(phase := Exiting(true))
    else s.(phase := Writing(s.revision, s.states))
  }

  datatype Answer = Rejected | Resolved | Promised

  function SaveAnswer(s: Store): Answer {
    if s.saveFailed then Rejected
    else if s.persistedRevision == s.revision && s.saveHolds == {} then Resolved
    else Promised
  }

  function SaveStep(s: Store): Store {
    if SaveAnswer(s).Promised? && s.phase.Idle? then LoopStep(s) else s
  }

  function KeptInputs(revisions: map<string, nat>, states: States, persisted: nat): map<string, nat> {
    map id | id in revisions && (id in states || revisions[id] > persisted) :: revisions[id]
  }

  function KeptKeys(revisions: map<string, nat>, extra: Extra, persisted: nat): map<string, nat> {
    map k | k in revisions && (k in extra || revisions[k] > persisted) :: revisions[k]
  }

  function KeptExtras(revisions: map<string, map<string, nat>>, states: States, persisted: nat)
    : map<string, map<string, nat>>
  {
    map id | id in revisions && KeptKeys(revisions[id], Get(states, id).ExtraKeys(), persisted) != map[]
      :: KeptKeys(revisions[id], Get(states, id).ExtraKeys(), persisted)
  }

  /** After the write returns: publish the revision, forget what no longer needs one. */
  function Published(s: Store, target: nat): Store {
    s.(persistedRevision := target,
       inputRevisions := KeptInputs(s.inputRevisions, s.states, target),
       extraRevisions := KeptExtras(s.extraRevisions, s.states, target))
  }

  function WriteReturnedStep(s: Store): Store
    requires s.phase.Writing?
  {
    LoopStep(Published(s, s.phase.target))
  }

  function LoadStep(s: Store, file: Option<States>): Store {
    s.(states := file.GetOr(map[]), revision := 0, persistedRevision := 0,
       inputRevisions := map[], extraRevisions := map[])
  }

  // ---------------------------------------------------------------- the object

  class StateStore {
    var states: States
    var revision: nat
    var persistedRevision: nat
    var inputRevisions: map<string, nat>
    var extraRevisions: map<string, map<string, nat>>
    var saveHolds: set<nat>
    var saveFailed: bool
    var savePromise: Phase

    ghost function Value(): Store
      reads this
    {
      Store(states, revision, persistedRevision, inputRevisions, extraRevisions, saveHolds, saveFailed, savePromise)
    }

    constructor ()
      ensures Value() == FRESH
    {
      states, revision, persistedRevision := map[], 0, 0;
      inputRevisions, extraRevisions := map[], map[];
      saveHolds, saveFailed, savePromise := {}, false, Idle;
    }

    method Load(file: Option<States>)
      modifies this
      ensures Value() == LoadStep(old(Value()), file)
    {
      states, inputRevisions, extraRevisions := map[], map[], map[];
      if file.Some? { states := file.value; }
      revision, persistedRevision := 0, 0;
    }

    method IsPersisted(inputId: string, extraKey: Option<string>) returns (r: bool)
      ensures r == if extraKey.None? then InputIsPersisted(Value(), inputId)
                   else ExtraIsPersisted(Value(), inputId, extraKey.value)
    {
      var known := 0;
      if extraKey.None? {
        if inputId in inputRevisions { known := inputRevisions[inputId]; }
      } else if inputId in extraRevisions && extraKey.value in extraRevisions[inputId] {
        known := extraRevisions[inputId][extraKey.value];
      }
      r := !saveFailed && known <= persistedRevision;
    }

    method TrackExtraRevision(inputId: string, before: Extra, after: Extra)
      modifies this`extraRevisions
      ensures extraRevisions == Stamped(old(extraRevisions), inputId, Changed(before, after), revision)
    {
      var rest := before.Keys + after.Keys;
      ghost var done: set<string> := {};
      while rest != {}
        invariant done <= Changed(before, after) <= done + rest
        invariant rest <= before.Keys + after.Keys
        invariant done !! rest
        invariant extraRevisions == Stamped(old(extraRevisions), inputId, done, revision)
        decreases rest
      {
        var key :| key in rest;
        rest := rest - {key};
        if Find(before, key) == Find(after, key) { continue; }
        StampOneMore(old(extraRevisions), inputId, done, key, revision);
        var revisions := if inputId in extraRevisions then extraRevisions[inputId] else map[];
        extraRevisions := extraRevisions[inputId := revisions[key := revision]];
        done := done + {key};
      }
      assert done == Changed(before, after);
    }

    method Set(inputId: string, state: InputState)
      modifies this
      ensures Value() == SetStep(old(Value()), inputId, state)
    {
      var previous := Get(states, inputId);
      states := states[inputId := state];
      revision := revision + 1;
      inputRevisions := inputRevisions[inputId := revision];
      TrackExtraRevision(inputId, previous.ExtraKeys(), state.ExtraKeys());
    }

    method Update(inputId: string, partial: InputState)
      modifies this
      ensures Value() == UpdateStep(old(Value()), inputId, partial)
    {
      var current := Get(states, inputId);
      var merged := current.(fields := current.fields + partial.fields);
      if partial.lastOffset.Some? { merged := merged.(lastOffset := partial.lastOffset); }
      if partial.extra.Some? { merged := merged.(extra := partial.extra); }
      if partial.extra.Some? && current.extra.Some? {
        merged := merged.(extra := Some(current.extra.value + partial.extra.value));
      }
      states := states[inputId := merged];
      revision := revision + 1;
      inputRevisions := inputRevisions[inputId := revision];
      TrackExtraRevision(inputId, current.ExtraKeys(), merged.ExtraKeys());
    }

    method Delete(inputId: string) returns (deleted: bool)
      modifies this
      ensures deleted == (inputId in old(states))
      ensures Value() == DeleteStep(old(Value()), inputId)
    {
      var previous := Get(states, inputId);
      deleted := inputId in states;
      states := states - {inputId};
      if deleted {
        revision := revision + 1;
        inputRevisions := inputRevisions[inputId := revision];
        TrackExtraRevision(inputId, previous.ExtraKeys(), map[]);
      } else {
        assert states == old(states);
      }
    }

    method HoldSaveUntil(promise: nat)
      modifies this`saveHolds
      ensures Value() == HoldStep(old(Value()), promise)
    {
      saveHolds := saveHolds + {promise};
    }

    /** The callbacks `holdSaveUntil` attaches to the promise. */
    method Settle(promise: nat, accepted: bool)
      modifies this`saveHolds, this`saveFailed
      ensures Value() == SettleStep(old(Value()), promise, accepted)
    {
      if !accepted { saveFailed := true; }
      saveHolds := saveHolds - {promise};
    }

    method Save() returns (answer: Answer)
      modifies this`savePromise
      ensures answer == SaveAnswer(old(Value()))
      ensures Value() == SaveStep(old(Value()))
    {
      if saveFailed { return Rejected; }
      if persistedRevision == revision && saveHolds == {} { return Resolved; }
      if savePromise == Idle { Loop(); }
      return Promised;
    }

    /** `flushPendingRevisions` from the head of its loop to the next await. */
    method Loop()
      modifies this`savePromise
      ensures Value() == LoopStep(old(Value()))
    {
      if saveFailed { savePromise := Exiting(false); return; }
      if saveHolds != {} { savePromise := Awaiting(saveHolds); return; }
      if persistedRevision >= revision { savePromise := Exiting(true); return; }
      savePromise := Writing(revision, states);
    }

    /** `flushPendingRevisions` from the end of the write to the next await. */
    method WriteReturned()
      requires savePromise.Writing?
      modifies this
      ensures Value() == WriteReturnedStep(old(Value()))
    {
      persistedRevision := savePromise.target;
      PruneInputs();
      PruneExtras();
      Loop();
    }

    method PruneInputs()
      modifies this`inputRevisions
      ensures inputRevisions == KeptInputs(old(inputRevisions), states, persistedRevision)
    {
      var rest := inputRevisions.Keys;
      while rest != {}
        invariant rest <= inputRevisions.Keys <= old(inputRevisions).Keys
        invariant forall id <- inputRevisions :: inputRevisions[id] == old(inputRevisions)[id]
        invariant forall id <- old(inputRevisions).Keys - rest ::
                    id in inputRevisions <==> id in states || old(inputRevisions)[id] > persistedRevision
        decreases rest
      {
        var id :| id in rest;
        rest := rest - {id};
        if id !in states && inputRevisions[id] <= persistedRevision { inputRevisions := inputRevisions - {id}; }
      }
    }

    method PruneExtras()
      modifies this`extraRevisions
      ensures extraRevisions == KeptExtras(old(extraRevisions), states, persistedRevision)
    {
      var rest := extraRevisions.Keys;
      while rest != {}
        invariant rest <= extraRevisions.Keys <= old(extraRevisions).Keys
        invariant forall id <- rest :: extraRevisions[id] == old(extraRevisions)[id]
        invariant forall id <- old(extraRevisions).Keys - rest :: Find(extraRevisions, id)
                    == Find(KeptExtras(old(extraRevisions), states, persistedRevision), id)
        decreases rest
      {
        var id :| id in rest;
        rest := rest - {id};
        var kept := PruneKeys(extraRevisions[id], Get(states, id).ExtraKeys(), persistedRevision);
        extraRevisions := if kept == map[] then extraRevisions - {id} else extraRevisions[id := kept];
      }
      SameLookups(extraRevisions, KeptExtras(old(extraRevisions), states, persistedRevision));
    }

    /** The `finally` that clears the save promise. */
    method Finally()
      modifies this`savePromise
      ensures Value() == old(Value()).(phase := Idle)
    {
      savePromise := Idle;
    }
  }

  method PruneKeys(revisions: map<string, nat>, extra: Extra, persisted: nat) returns (kept: map<string, nat>)
    ensures kept == KeptKeys(revisions, extra, persisted)
  {
    kept := revisions;
    var rest := revisions.Keys;
    while rest != {}
      invariant rest <= kept.Keys <= revisions.Keys
      invariant forall k <- kept :: kept[k] == revisions[k]
      invariant forall k <- revisions.Keys - rest :: k in kept <==> k in extra || revisions[k] > persisted
      decreases rest
    {
      var key :| key in rest;
      rest := rest - {key};
      if key !in extra && kept[key] <= persisted { kept := kept - {key}; }
    }
  }

  lemma {:induction false} SameLookups<T>(a: map<string, T>, b: map<string, T>)
    requires forall k <- a.Keys + b.Keys :: Find(a, k) == Find(b, k)
    ensures a == b
  {
    forall k | k in a || k in b ensures k in a && k in b && a[k] == b[k] {
      assert k in a.Keys + b.Keys;
    }
  }

  lemma {:induction false} StampOneMore(revisions: map<string, map<string, nat>>, id: string, done: set<string>,
        key: string, revision: nat)
    ensures Stamped(revisions, id, done + {key}, revision)
         == var now := Stamped(revisions, id, done, revision);
            now[id := Find(now, id).GetOr(map[])[key := revision]]
  {
    var first := Find(revisions, id).GetOr(map[]);
    var now := Stamped(revisions, id, done, revision);
    assert first + (map k | k in done + {key} :: revision)
        == (first + map k | k in done :: revision)[key := revision];
    assert done == {} ==> first + (map k | k in done :: revision) == first;
  }

  /** An update changes what the partial state names, key by key in `extra`, and nothing else. */
  lemma {:induction false} UpdateIsPartial(s: Store, id: string, partial: InputState, other: string, key: string)
    ensures var after := UpdateStep(s, id, partial).states;
            && (other != id ==> Find(after, other) == Find(s.states, other))
            && Get(after, id).lastOffset
                 == (if partial.lastOffset.Some? then partial.lastOffset else Get(s.states, id).lastOffset)
            && FindExtra(after, id, key)
                 == (if key in partial.ExtraKeys() then Some(partial.ExtraKeys()[key]) else FindExtra(s.states, id, key))
            && Find(Get(after, id).fields, key)
                 == (if key in partial.fields then Some(partial.fields[key]) else Find(Get(s.states, id).fields, key))
  {
  }

  /** A change is to one input: set, it has the state given; deleted, it is gone. */
  lemma {:induction false} ChangesAreToOne(s: Store, id: string, state: InputState, other: string)
    ensures Find(SetStep(s, id, state).states, id) == Some(state) && Find(DeleteStep(s, id).states, id) == None
    ensures other != id ==>
              && Find(SetStep(s, id, state).states, other) == Find(s.states, other)
              && Find(DeleteStep(s, id).states, other) == Find(s.states, other)
    ensures DeleteStep(s, id).revision == s.revision + (if id in s.states then 1 else 0)
    ensures state.ExtraKeys() == Get(s.states, id).ExtraKeys() ==>
              SetStep(s, id, state).extraRevisions == s.extraRevisions
  {
    assert Changed(state.ExtraKeys(), state.ExtraKeys()) == {};
  }

  /** After a write no revision is kept of what is gone and persisted: only inputs and keys that are
      there, or that changed since, have one. */
  lemma {:induction false} RevisionsArePruned(s: Store, target: nat, id: string, key: string)
    ensures var v := Published(s, target);
            && (id in v.inputRevisions <==> id in s.inputRevisions && (id in s.states || s.inputRevisions[id] > target))
            && (id in v.extraRevisions ==> v.extraRevisions[id] != map[])
            && (id in v.extraRevisions && key in v.extraRevisions[id] <==>
                  && id in s.extraRevisions && key in s.extraRevisions[id]
                  && (FindExtra(s.states, id, key).Some? || s.extraRevisions[id][key] > target))
  {
    if id in s.extraRevisions && key in s.extraRevisions[id] {
      var kept := KeptKeys(s.extraRevisions[id], Get(s.states, id).ExtraKeys(), target);
      if key in kept { assert kept != map[]; }
    }
  }

  /** Whatever was there before a load, afterwards memory is the file and all of it is persisted. */
  lemma {:induction false} LoadStartsAfresh(s: Store, file: Option<States>, id: string, key: string)
    requires !s.saveFailed
    ensures var v := LoadStep(s, file);
            && v.states == file.GetOr(map[]) && InputIsPersisted(v, id) && ExtraIsPersisted(v, id, key)
            && v.saveHolds == s.saveHolds && (s.saveHolds == {} ==> SaveAnswer(v) == Resolved)
  {
  }
}
