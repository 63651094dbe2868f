/** The durability protocol: inputs emit batches and then advance their offsets, the input
    manager handles each input's batches one after the other, a Codex batch holds the checkpoint
    until its handling settles, and the store saves. Every step may interleave with every other,
    a write may land or fail at any time, and the process may die and restart at any time.

    Positions of an input's source are numbered; offset `n` claims every position below `n`. */
module CheckpointProtocol {
  import opened Wrappers
  import opened Checkpoints

  // ---------------------------------------------------------------- handling batches

  datatype Status = Waiting | Running | Settled(accepted: bool)

  /** The promise that handles one emitted batch, chained to the one before. */
  datatype Handling = Handling(input: string, from: nat, to: nat, previous: Option<nat>, status: Status)

  /** Every handling so far, numbered by its place, and the last one of each queue in use. */
  datatype Queues = Queues(handlings: seq<Handling>, tails: map<string, nat>)

  function Enqueued(q: Queues, id: string, from: nat, to: nat): Queues {
    Queues(q.handlings + [Handling(id, from, to, Find(q.tails, id), Waiting)], q.tails[id := |q.handlings|])
  }

  predicate MayStart(q: Queues, h: nat) {
    && h < |q.handlings|
    && q.handlings[h].status.Waiting?
    && var p := q.handlings[h].previous;
       p.Some? ==> p.value < |q.handlings| && q.handlings[p.value].status.Settled?
  }

  predicate IsSettled(q: Queues, h: nat) {
    h < |q.handlings| && q.handlings[h].status.Settled?
  }

  function WithStatus(q: Queues, h: nat, status: Status): Queues
    requires h < |q.handlings|
  {
    q.(handlings := q.handlings[h := q.handlings[h].(status := status)])
  }

  class InputManager {
    const codex: set<string>
    var handlings: seq<Handling>
    var entryQueues: map<string, nat>

    constructor (codex: set<string>)
      ensures this.codex == codex && handlings == [] && entryQueues == map[]
    {
      this.codex, handlings, entryQueues := codex, [], map[];
    }

    ghost function Value(): Queues
      reads this
    {
      Queues(handlings, entryQueues)
    }

    /** The handler of an input's `entries` event. */
    method OnEntries(store: StateStore, inputId: string, from: nat, to: nat)
      modifies this, store`saveHolds
      ensures store.Value() == EmittedStore(old(store.Value()), old(Value()), codex, inputId)
      ensures Value() == EmittedQueues(old(store.Value()), old(Value()), inputId, from, to)
    {
      if store.saveFailed { return; }
      var previous := if inputId in entryQueues then Some(entryQueues[inputId]) else None;
      var handling := |handlings|;
      handlings := handlings + [Handling(inputId, from, to, previous, Waiting)];
      if inputId in codex { store.HoldSaveUntil(handling); }
      entryQueues := entryQueues[inputId := handling];
    }

    /** The `finally` of a handling: forget the queue if this was its last. */
    method OnSettled(inputId: string, handling: nat)
      modifies this`entryQueues
      ensures Value() == Forgotten(old(Value()), inputId, handling)
    {
      if inputId in entryQueues && entryQueues[inputId] == handling { entryQueues := entryQueues - {inputId}; }
    }
  }

  function EmittedStore(s: Store, q: Queues, codex: set<string>, id: string): Store {
    if !s.saveFailed && id in codex then HoldStep(s, |q.handlings|) else s
  }

  function EmittedQueues(s: Store, q: Queues, id: string, from: nat, to: nat): Queues {
    if s.saveFailed then q else Enqueued(q, id, from, to)
  }

  function Forgotten(q: Queues, id: string, h: nat): Queues {
    if id in q.tails && q.tails[id] == h then q.(tails := q.tails - {id}) else q
  }

  // ---------------------------------------------------------------- the whole system

  /** A call of `save` that was given the promise of flush number `flush`. `late` says that the
      flush loop had already ended well and that changes were waiting. */
  datatype Call = Call(flush: nat, revision: nat, late: bool)

  /** `history[r]` is the memory at revision `r`; `exits[n]` is how flush `n` ended: with the
      revision then persisted, or rejected. */
  datatype World = World(
    codex: set<string>,
    store: Store,
    disk: States,
    diskRevision: nat,
    history: seq<States>,
    queues: Queues,
    cursors: map<string, nat>,
    accepted: set<(string, nat)>,
    calls: seq<Call>,
    exits: seq<Option<nat>>)

  datatype Step =
    | Emit(id: string, to: nat)
    | Set(id: string, state: InputState)
    | Update(id: string, partial: InputState)
    | Delete(id: string)
    | Start(h: nat)
    | Finish(h: nat, ok: bool)
    | Callback(h: nat)
    | Forget(id: string, h: nat)
    | Save
    | HoldsReleased
    | HoldsRejected
    | WriteLands
    | WriteReturns(ok: bool)
    | FinallyRuns
    | Restart

  function Cursor(w: World, id: string): nat { Find(w.cursors, id).GetOr(0) }

  /** A Codex input emits a batch before it moves its offset past it. */
  predicate MayAdvance(w: World, id: string, offset: nat) {
    id in w.codex ==> offset <= Cursor(w, id)
  }

  function Remember(w: World, s: Store): World {
    w.(store := s, history := if s.revision > w.store.revision then w.history + [s.states] else w.history)
  }

  function Looped(w: World, s: Store): World {
    w.(store := s,
       exits := if s.phase.Exiting?
                then w.exits + [if s.phase.resolved then Some(s.persistedRevision) else None]
                else w.exits)
  }

  function Saved(w: World): World {
    var s := w.store;
    if !SaveAnswer(s).Promised? then w
    else
      var exiting := s.phase.Exiting? && |w.exits| > 0;
      var flush := if exiting then |w.exits| - 1 else |w.exits|;
      var late := s.phase == Exiting(true) && s.persistedRevision < s.revision;
      w.(store := SaveStep(s), calls := w.calls + [Call(flush, s.revision, late)])
  }

  function Offsets(states: States): map<string, nat> { map id | id in states :: states[id].Offset() }

  function Positions(h: Handling): set<(string, nat)> {
    set q | h.from <= q < h.to :: (h.input, q)
  }

  predicate AllAccepted(w: World) {
    w.store.phase.Awaiting? && forall h <- w.store.phase.awaited ::
      IsSettled(w.queues, h) && w.queues.handlings[h].status.accepted && h !in w.store.saveHolds
  }

  predicate SomeRejected(w: World) {
    w.store.phase.Awaiting? && exists h <- w.store.phase.awaited ::
      IsSettled(w.queues, h) && !w.queues.handlings[h].status.accepted && h !in w.store.saveHolds
  }

  predicate Landed(w: World) {
    w.store.phase.Writing? && w.disk == w.store.phase.snapshot && w.diskRevision == w.store.phase.target
  }

  function Finished(w: World, h: nat, ok: bool): World
    requires h < |w.queues.handlings|
  {
    w.(queues := WithStatus(w.queues, h, Settled(ok)),
       accepted := if ok then w.accepted + Positions(w.queues.handlings[h]) else w.accepted)
  }

  function Restarted(w: World): World {
    World(w.codex, LoadStep(FRESH, Some(w.disk)), w.disk, 0, [w.disk], Queues([], map[]), Offsets(w.disk), w.accepted,
          [], [])
  }

  /** One step; a step that is not enabled changes nothing. */
  function Next(w: World, step: Step): World {
    match step
    case Emit(id, to) =>
      if to < Cursor(w, id) then w
      else w.(store := EmittedStore(w.store, w.queues, w.codex, id),
              queues := EmittedQueues(w.store, w.queues, id, Cursor(w, id), to),
              cursors := w.cursors[id := to])
    case Set(id, state) =>
      if MayAdvance(w, id, state.Offset()) then Remember(w, SetStep(w.store, id, state)) else w
    case Update(id, partial) =>
      if MayAdvance(w, id, Merged(Get(w.store.states, id), partial).Offset())
      then Remember(w, UpdateStep(w.store, id, partial)) else w
    case Delete(id) => Remember(w, DeleteStep(w.store, id))
    case Start(h) => if MayStart(w.queues, h) then w.(queues := WithStatus(w.queues, h, Running)) else w
    case Finish(h, ok) =>
      if h < |w.queues.handlings| && w.queues.handlings[h].status.Running? then Finished(w, h, ok) else w
    case Callback(h) =>
      if h in w.store.saveHolds && IsSettled(w.queues, h)
      then w.(store := SettleStep(w.store, h, w.queues.handlings[h].status.accepted)) else w
    case Forget(id, h) => if IsSettled(w.queues, h) then w.(queues := Forgotten(w.queues, id, h)) else w
    case Save => Saved(w)
    case HoldsReleased => if AllAccepted(w) then Looped(w, LoopStep(w.store)) else w
    case HoldsRejected => if SomeRejected(w) then Looped(w, w.store.(phase := Exiting(false))) else w
    case WriteLands =>
      if w.store.phase.Writing? then w.(disk := w.store.phase.snapshot, diskRevision := w.store.phase.target) else w
    case WriteReturns(ok) =>
      if !w.store.phase.Writing? || (ok && !Landed(w)) then w
      else Looped(w, if ok then WriteReturnedStep(w.store) else w.store.(phase := Exiting(false)))
    case FinallyRuns => if w.store.phase.Exiting? then w.(store := w.store.(phase := Idle)) else w
    case Restart => Restarted(w)
  }

  function Run(w: World, steps: seq<Step>): World
    decreases |steps|
  {
    if steps == [] then w else Run(Next(w, steps[0]), steps[1..])
  }

  /** A machine on which nothing ran yet. */
  function Initial(codex: set<string>): World {
    World(codex, FRESH, map[], 0, [map[]], Queues([], map[]), map[], {}, [], [])
  }

  // ---------------------------------------------------------------- revisions

  /** Since the revision recorded for an input it has not changed, looking back no further than
      what is persisted. */
  ghost predicate InputSince(s: Store, history: seq<States>, id: string) {
    forall k :: Find(s.inputRevisions, id).GetOr(0) <= k && s.persistedRevision <= k < |history|
      ==> Find(history[k], id) == Find(s.states, id)
  }

  ghost predicate ExtraSince(s: Store, history: seq<States>, id: string, key: string) {
    forall k :: ExtraRevision(s.extraRevisions, id, key) <= k && s.persistedRevision <= k < |history|
      ==> FindExtra(history[k], id, key) == FindExtra(s.states, id, key)
  }

  ghost predicate Revisions(w: World) {
    && |w.history| == w.store.revision + 1
    && w.history[w.store.revision] == w.store.states
    && w.store.persistedRevision <= w.diskRevision <= w.store.revision
    && w.disk == w.history[w.diskRevision]
    && (w.store.phase.Writing? ==>
          && w.store.persistedRevision < w.store.phase.target
          && w.diskRevision <= w.store.phase.target <= w.store.revision
          && w.store.phase.snapshot == w.history[w.store.phase.target])
    && (forall id :: InputSince(w.store, w.history, id))
    && (forall id, key :: ExtraSince(w.store, w.history, id, key))
  }

  lemma {:induction false} RecordedInput(s: Store, history: seq<States>, states: States, id: string,
        next: InputState, other: string)
    requires |history| == s.revision + 1 && s.persistedRevision <= s.revision && history[s.revision] == s.states
    requires forall o :: o != id ==> Find(states, o) == Find(s.states, o)
    requires InputSince(s, history, other)
    ensures InputSince(Recorded(s, states, id, next), history + [states], other)
  {
    var t, h := Recorded(s, states, id, next), history + [states];
    forall k | Find(t.inputRevisions, other).GetOr(0) <= k && t.persistedRevision <= k < |h|
      ensures Find(h[k], other) == Find(t.states, other)
    {
      if k < |history| { assert h[k] == history[k]; }
    }
  }

  lemma {:induction false} StampedRevision(revisions: map<string, map<string, nat>>, id: string,
        keys: set<string>, revision: nat, other: string, key: string)
    ensures ExtraRevision(Stamped(revisions, id, keys, revision), other, key)
         == if other == id && key in keys then revision else ExtraRevision(revisions, other, key)
  {
  }

  lemma {:induction false} RecordedExtra(s: Store, history: seq<States>, states: States, id: string, next: InputState,
                      other: string, key: string)
    requires |history| == s.revision + 1 && s.persistedRevision <= s.revision && history[s.revision] == s.states
    requires forall o :: o != id ==> Find(states, o) == Find(s.states, o)
    requires Get(states, id) == next
    requires ExtraSince(s, history, other, key)
    ensures ExtraSince(Recorded(s, states, id, next), history + [states], other, key)
  {
    var t, h := Recorded(s, states, id, next), history + [states];
    var before, after := Get(s.states, id).ExtraKeys(), next.ExtraKeys();
    StampedRevision(s.extraRevisions, id, Changed(before, after), s.revision + 1, other, key);
    assert other != id ==> Find(states, other) == Find(s.states, other);
    forall k | ExtraRevision(t.extraRevisions, other, key) <= k && t.persistedRevision <= k < |h|
      ensures FindExtra(h[k], other, key) == FindExtra(t.states, other, key)
    {
      if k < |history| {
        assert h[k] == history[k];
        assert other == id ==> key !in Changed(before, after);
        assert FindExtra(history[k], other, key) == FindExtra(s.states, other, key);
      }
    }
  }

  lemma {:induction false} RecordedKeepsRevisions(w: World, states: States, id: string, next: InputState)
    requires Revisions(w)
    requires forall o :: o != id ==> Find(states, o) == Find(w.store.states, o)
    requires Get(states, id) == next
    ensures Revisions(Remember(w, Recorded(w.store, states, id, next)))
  {
    forall other ensures InputSince(Recorded(w.store, states, id, next), w.history + [states], other) {
      assert InputSince(w.store, w.history, other);
      RecordedInput(w.store, w.history, states, id, next, other);
    }
    forall other, key ensures ExtraSince(Recorded(w.store, states, id, next), w.history + [states], other, key) {
      assert ExtraSince(w.store, w.history, other, key);
      RecordedExtra(w.store, w.history, states, id, next, other, key);
    }
  }

  lemma {:induction false} PublishedInput(w: World, id: string)
    requires Revisions(w) && Landed(w)
    ensures InputSince(Published(w.store, w.store.phase.target), w.history, id)
  {
    assert InputSince(w.store, w.history, id);
  }

  lemma {:induction false} KeptRevision(s: Store, target: nat, id: string, key: string)
    ensures var kept := ExtraRevision(Published(s, target).extraRevisions, id, key);
            || kept == ExtraRevision(s.extraRevisions, id, key)
            || (kept == 0 && ExtraRevision(s.extraRevisions, id, key) <= target)
  {
    if id in s.extraRevisions && key in s.extraRevisions[id] {
      var kept := KeptKeys(s.extraRevisions[id], Get(s.states, id).ExtraKeys(), target);
      if key in kept { assert kept != map[]; }
    }
  }

  lemma {:induction false} PublishedExtra(w: World, id: string, key: string)
    requires Revisions(w) && Landed(w)
    ensures ExtraSince(Published(w.store, w.store.phase.target), w.history, id, key)
  {
    assert ExtraSince(w.store, w.history, id, key);
    KeptRevision(w.store, w.store.phase.target, id, key);
  }

  predicate ChangesBooks(w: World, step: Step) {
    step.Set? || step.Update? || step.Delete? || step.Restart? || (step == WriteReturns(true) && Landed(w))
  }

  /** The books of `v` are those of `w`, up to a write that landed or began. */
  predicate SameLedger(w: World, v: World) {
    && v.history == w.history && v.store.states == w.store.states && v.store.revision == w.store.revision
    && v.store.persistedRevision == w.store.persistedRevision
    && v.store.inputRevisions == w.store.inputRevisions && v.store.extraRevisions == w.store.extraRevisions
    && ((v.disk == w.disk && v.diskRevision == w.diskRevision)
        || w.store.phase == Writing(v.diskRevision, v.disk))
    && (v.store.phase.Writing? ==>
          || v.store.phase == w.store.phase
          || (v.store.phase == Writing(w.store.revision, w.store.states)
              && w.store.persistedRevision < w.store.revision
              && v.disk == w.disk && v.diskRevision == w.diskRevision))
  }

  predicate IsQueueStep(step: Step) {
    step.Emit? || step.Start? || step.Finish? || step.Callback? || step.Forget?
  }

  lemma {:induction false} QuietQueueStep(w: World, step: Step)
    requires IsQueueStep(step)
    ensures SameLedger(w, Next(w, step)) && Next(w, step).store.phase == w.store.phase
  {
  }

  lemma {:induction false} QuietHoldStep(w: World, step: Step)
    requires step.HoldsReleased? || step.HoldsRejected?
    ensures SameLedger(w, Next(w, step))
  {
  }

  lemma {:induction false} QuietWriteStep(w: World, step: Step)
    requires step.WriteLands? || step.FinallyRuns? || step == WriteReturns(false)
    ensures SameLedger(w, Next(w, step))
  {
  }

  lemma {:induction false} QuietSave(w: World)
    ensures SameLedger(w, Saved(w))
  {
  }

  lemma {:induction false} QuietStep(w: World, step: Step)
    requires !ChangesBooks(w, step)
    ensures SameLedger(w, Next(w, step))
  {
    match step
    case Save => QuietSave(w);
    case HoldsReleased => QuietHoldStep(w, step);
    case HoldsRejected => QuietHoldStep(w, step);
    case WriteReturns(ok) => if !ok { QuietWriteStep(w, step); }
    case WriteLands => QuietWriteStep(w, step);
    case FinallyRuns => QuietWriteStep(w, step);
    case _ => QuietQueueStep(w, step);
  }

  lemma {:induction false} RevisionsKept(w: World, step: Step)
    requires Revisions(w)
    ensures Revisions(Next(w, step))
  {
    if !ChangesBooks(w, step) {
      QuietStep(w, step);
      SameBooks(w, Next(w, step));
    } else {
      match step
      case Set(id, state) =>
        RecordedKeepsRevisions(w, w.store.states[id := state], id, state);
      case Update(id, partial) =>
        var state := Merged(Get(w.store.states, id), partial);
        RecordedKeepsRevisions(w, w.store.states[id := state], id, state);
      case Delete(id) =>
        if id in w.store.states { RecordedKeepsRevisions(w, w.store.states - {id}, id, EMPTY); }
      case WriteReturns(ok) => PublishedKeepsRevisions(w);
      case Restart => RestartKeepsRevisions(w);
    }
  }

  /** What the books say does not depend on holds, failures, queues or calls. */
  lemma {:induction false} SameBooks(w: World, v: World)
    requires Revisions(w) && v.history == w.history
    requires v.store.states == w.store.states && v.store.revision == w.store.revision
    requires v.store.persistedRevision == w.store.persistedRevision
    requires v.store.inputRevisions == w.store.inputRevisions && v.store.extraRevisions == w.store.extraRevisions
    requires v.store.persistedRevision <= v.diskRevision <= v.store.revision && v.disk == v.history[v.diskRevision]
    requires v.store.phase.Writing? ==>
               && v.store.persistedRevision < v.store.phase.target
               && v.diskRevision <= v.store.phase.target <= v.store.revision
               && v.store.phase.snapshot == v.history[v.store.phase.target]
    ensures Revisions(v)
  {
    forall id ensures InputSince(v.store, v.history, id) { assert InputSince(w.store, w.history, id); }
    forall id, key ensures ExtraSince(v.store, v.history, id, key) { assert ExtraSince(w.store, w.history, id, key); }
  }

  lemma {:induction false} PublishedKeepsRevisions(w: World)
    requires Revisions(w) && Landed(w)
    ensures Revisions(Looped(w, WriteReturnedStep(w.store)))
  {
    var v := w.(store := Published(w.store, w.store.phase.target).(phase := Idle));
    forall id ensures InputSince(v.store, v.history, id) {
      PublishedInput(w, id);
      assert InputSince(Published(w.store, w.store.phase.target), w.history, id);
    }
    forall id, key ensures ExtraSince(v.store, v.history, id, key) {
      PublishedExtra(w, id, key);
      assert ExtraSince(Published(w.store, w.store.phase.target), w.history, id, key);
    }
    SameBooks(v, Looped(w, WriteReturnedStep(w.store)));
  }

  lemma {:induction false} RestartKeepsRevisions(w: World)
    ensures Revisions(Restarted(w))
  {
    var v := Restarted(w);
    forall id ensures InputSince(v.store, v.history, id) {
      forall k | 0 <= k < |v.history| ensures v.history[k] == v.store.states {}
    }
    forall id, key ensures ExtraSince(v.store, v.history, id, key) {
      forall k | 0 <= k < |v.history| ensures v.history[k] == v.store.states {}
    }
  }

  lemma {:induction false} RevisionsAlways(w: World, steps: seq<Step>)
    requires Revisions(w)
    ensures Revisions(Run(w, steps))
    decreases |steps|
  {
    if steps != [] {
      RevisionsKept(w, steps[0]);
      RevisionsAlways(Next(w, steps[0]), steps[1..]);
    }
  }

  /** What `isPersisted` reports as persisted is on disk exactly as in memory. */
  lemma {:induction false} PersistedMeansOnDisk(codex: set<string>, steps: seq<Step>, id: string, key: string)
    ensures var w := Run(Initial(codex), steps);
            && (InputIsPersisted(w.store, id) ==> Find(w.disk, id) == Find(w.store.states, id))
            && (ExtraIsPersisted(w.store, id, key) ==> FindExtra(w.disk, id, key) == FindExtra(w.store.states, id, key))
            && w.store.persistedRevision <= w.store.revision
  {
    var w := Run(Initial(codex), steps);
    InitialBooks(codex);
    RevisionsAlways(Initial(codex), steps);
    assert InputSince(w.store, w.history, id);
    assert ExtraSince(w.store, w.history, id, key);
  }

  lemma {:induction false} InitialBooks(codex: set<string>)
    ensures Revisions(Initial(codex))
  {
    RestartKeepsRevisions(Initial(codex));
    var v := Restarted(Initial(codex));
    SameBooks(v, Initial(codex));
  }

  /** Without a restart the persisted revision only grows. */
  lemma {:induction false} PersistedRevisionGrows(w: World, steps: seq<Step>)
    requires Revisions(w) && Restart !in steps
    ensures w.store.persistedRevision <= Run(w, steps).store.persistedRevision
    decreases |steps|
  {
    if steps != [] {
      RevisionsKept(w, steps[0]);
      assert steps[0] != Restart;
      PersistedStep(w, steps[0]);
      PersistedRevisionGrows(Next(w, steps[0]), steps[1..]);
    }
  }

  lemma {:induction false} PersistedStep(w: World, step: Step)
    requires w.store.phase.Writing? ==> w.store.persistedRevision < w.store.phase.target
    requires step != Restart
    ensures w.store.persistedRevision <= Next(w, step).store.persistedRevision
  {
    if !ChangesBooks(w, step) { QuietStep(w, step); }
  }
}
