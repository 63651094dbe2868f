/** When the checkpoint store says yes, and how an offset does get to disk: `isPersisted` answers
    exactly by what was changed since, and an accepted batch, undisturbed, has its offset saved. */
module CheckpointAnswers {
  import opened Wrappers
  import opened Checkpoints
  import opened CheckpointProtocol

  // ---------------------------------------------------------------- when `isPersisted` says yes

  /** The revision at which `id` was last set, updated or effectively deleted, 0 if it was not. */
  function Touched(w: World, step: Step, id: string, last: nat): nat {
    match step
    case Set(i, state) => if i == id && MayAdvance(w, i, state.Offset()) then |w.history| else last
    case Update(i, partial) =>
      if i == id && MayAdvance(w, i, Merged(Get(w.store.states, i), partial).Offset()) then |w.history| else last
    case Delete(i) => if i == id && i in w.store.states then |w.history| else last
    case Restart => 0
    case _ => last
  }

  function LastTouch(w: World, steps: seq<Step>, id: string, last: nat): nat
    decreases |steps|
  {
    if steps == [] then last else LastTouch(Next(w, steps[0]), steps[1..], id, Touched(w, steps[0], id, last))
  }

  /** The revision at which the value under `key` last became another one, 0 if it did not. */
  function Altered(w: World, step: Step, id: string, key: string, last: nat): nat {
    if step.Restart? then 0
    else if FindExtra(Next(w, step).store.states, id, key) != FindExtra(w.store.states, id, key) then |w.history|
    else last
  }

  function LastAltered(w: World, steps: seq<Step>, id: string, key: string, last: nat): nat
    decreases |steps|
  {
    if steps == [] then last
    else LastAltered(Next(w, steps[0]), steps[1..], id, key, Altered(w, steps[0], id, key, last))
  }

  /** The recorded revision is the true one, or both are persisted. */
  predicate Stands(s: Store, recorded: nat, last: nat) {
    && last <= s.revision
    && (recorded == last || (recorded <= s.persistedRevision && last <= s.persistedRevision))
  }

  predicate StandsFor(s: Store, id: string, last: nat) {
    Stands(s, Find(s.inputRevisions, id).GetOr(0), last)
  }

  predicate StandsForExtra(s: Store, id: string, key: string, last: nat) {
    Stands(s, ExtraRevision(s.extraRevisions, id, key), last)
  }

  lemma {:induction false} RecordedStands(w: World, states: States, at: string, next: InputState, id: string,
        key: string, last: nat, altered: nat)
    requires Revisions(w) && StandsFor(w.store, id, last) && StandsForExtra(w.store, id, key, altered)
    requires Get(states, at) == next && (id != at ==> Find(states, id) == Find(w.store.states, id))
    ensures var t := Recorded(w.store, states, at, next);
            && StandsFor(t, id, if id == at then |w.history| else last)
            && StandsForExtra(t, id, key,
                 if FindExtra(states, id, key) != FindExtra(w.store.states, id, key) then |w.history| else altered)
  {
    var before, after := Get(w.store.states, at).ExtraKeys(), next.ExtraKeys();
    StampedRevision(w.store.extraRevisions, at, Changed(before, after), w.store.revision + 1, id, key);
    assert key in Changed(before, after) <==> Find(before, key) != Find(after, key);
  }

  lemma {:induction false} PublishedStands(w: World, id: string, key: string, last: nat, altered: nat)
    requires Revisions(w) && Landed(w)
    requires StandsFor(w.store, id, last) && StandsForExtra(w.store, id, key, altered)
    ensures var t := Published(w.store, w.store.phase.target);
            StandsFor(t, id, last) && StandsForExtra(t, id, key, altered)
  {
    KeptRevision(w.store, w.store.phase.target, id, key);
  }

  /** Both books after one step. */
  predicate StandsAfter(w: World, step: Step, id: string, key: string, last: nat, altered: nat) {
    var v := Next(w, step).store;
    StandsFor(v, id, Touched(w, step, id, last)) && StandsForExtra(v, id, key, Altered(w, step, id, key, altered))
  }

  lemma {:induction false} StandsQuiet(w: World, step: Step, id: string, key: string, last: nat, altered: nat)
    requires !ChangesBooks(w, step)
    requires StandsFor(w.store, id, last) && StandsForExtra(w.store, id, key, altered)
    ensures StandsAfter(w, step, id, key, last, altered)
  {
    QuietStep(w, step);
    assert Next(w, step).store.states == w.store.states;
  }

  lemma {:induction false} StandsDelete(w: World, at: string, id: string, key: string, last: nat, altered: nat)
    requires Revisions(w) && StandsFor(w.store, id, last) && StandsForExtra(w.store, id, key, altered)
    ensures StandsAfter(w, Delete(at), id, key, last, altered)
  {
    if at in w.store.states { RecordedStands(w, w.store.states - {at}, at, EMPTY, id, key, last, altered); }
  }

  lemma {:induction false} StandsSet(w: World, at: string, state: InputState, id: string, key: string, last: nat,
        altered: nat)
    requires Revisions(w) && StandsFor(w.store, id, last) && StandsForExtra(w.store, id, key, altered)
    ensures StandsAfter(w, Set(at, state), id, key, last, altered)
  {
    if MayAdvance(w, at, state.Offset()) {
      RecordedStands(w, w.store.states[at := state], at, state, id, key, last, altered);
      assert Next(w, Set(at, state)).store == Recorded(w.store, w.store.states[at := state], at, state);
    } else {
      assert Next(w, Set(at, state)) == w;
    }
  }

  lemma {:induction false} StandsUpdate(w: World, at: string, partial: InputState, id: string, key: string, last: nat,
        altered: nat)
    requires Revisions(w) && StandsFor(w.store, id, last) && StandsForExtra(w.store, id, key, altered)
    ensures StandsAfter(w, Update(at, partial), id, key, last, altered)
  {
    var state := Merged(Get(w.store.states, at), partial);
    if MayAdvance(w, at, state.Offset()) {
      RecordedStands(w, w.store.states[at := state], at, state, id, key, last, altered);
      assert Next(w, Update(at, partial)).store == Recorded(w.store, w.store.states[at := state], at, state);
    } else {
      assert Next(w, Update(at, partial)) == w;
    }
  }

  lemma {:induction false} StandsWrite(w: World, id: string, key: string, last: nat, altered: nat)
    requires Revisions(w) && Landed(w)
    requires StandsFor(w.store, id, last) && StandsForExtra(w.store, id, key, altered)
    ensures StandsAfter(w, WriteReturns(true), id, key, last, altered)
  {
    PublishedStands(w, id, key, last, altered);
    WriteKeepsStates(w);
    assert Next(w, WriteReturns(true)).store.states == w.store.states;
  }

  lemma {:induction false} WriteKeepsStates(w: World)
    requires Landed(w)
    ensures var v, t := Next(w, WriteReturns(true)).store, Published(w.store, w.store.phase.target);
            v == t.(phase := v.phase) && v.states == w.store.states
  {
  }

  lemma {:induction false} StandsKept(w: World, step: Step, id: string, key: string, last: nat, altered: nat)
    requires Revisions(w) && StandsFor(w.store, id, last) && StandsForExtra(w.store, id, key, altered)
    ensures StandsAfter(w, step, id, key, last, altered)
  {
    if !ChangesBooks(w, step) {
      StandsQuiet(w, step, id, key, last, altered);
    } else {
      match step
      case Set(at, state) => StandsSet(w, at, state, id, key, last, altered);
      case Update(at, partial) => StandsUpdate(w, at, partial, id, key, last, altered);
      case Delete(at) => StandsDelete(w, at, id, key, last, altered);
      case WriteReturns(ok) => StandsWrite(w, id, key, last, altered);
      case Restart =>
    }
  }

  lemma {:induction false} StandsAlways(w: World, steps: seq<Step>, id: string, key: string, last: nat, altered: nat)
    requires Revisions(w) && StandsFor(w.store, id, last) && StandsForExtra(w.store, id, key, altered)
    ensures var s := Run(w, steps).store;
            && StandsFor(s, id, LastTouch(w, steps, id, last))
            && StandsForExtra(s, id, key, LastAltered(w, steps, id, key, altered))
    decreases |steps|
  {
    if steps != [] {
      RevisionsKept(w, steps[0]);
      StandsKept(w, steps[0], id, key, last, altered);
      StandsAlways(Next(w, steps[0]), steps[1..], id, key, Touched(w, steps[0], id, last),
                   Altered(w, steps[0], id, key, altered));
    }
  }

  /** Unless a batch was rejected, `isPersisted` says yes exactly when the input was last changed,
      or the value under the extra key last became another one, at a revision that is published. */
  lemma {:induction false} PersistedIff(codex: set<string>, steps: seq<Step>, id: string, key: string)
    ensures var s := Run(Initial(codex), steps).store;
            && (InputIsPersisted(s, id)
                <==> !s.saveFailed && LastTouch(Initial(codex), steps, id, 0) <= s.persistedRevision)
            && (ExtraIsPersisted(s, id, key)
                <==> !s.saveFailed && LastAltered(Initial(codex), steps, id, key, 0) <= s.persistedRevision)
  {
    InitialBooks(codex);
    StandsAlways(Initial(codex), steps, id, key, 0, 0);
  }

  /** When a write returns and nothing was changed since its snapshot, everything is persisted. */
  lemma {:induction false} WriteConfirmsAll(codex: set<string>, steps: seq<Step>, id: string, key: string)
    requires var w := Run(Initial(codex), steps);
             Landed(w) && w.store.phase.target == w.store.revision && !w.store.saveFailed
    ensures var v := Next(Run(Initial(codex), steps), WriteReturns(true));
            InputIsPersisted(v.store, id) && ExtraIsPersisted(v.store, id, key) && v.disk == v.store.states
  {
    var w := Run(Initial(codex), steps);
    InitialBooks(codex);
    RevisionsAlways(Initial(codex), steps);
    StandsAlways(Initial(codex), steps, id, key, 0, 0);
    var last, altered := LastTouch(Initial(codex), steps, id, 0), LastAltered(Initial(codex), steps, id, key, 0);
    StandsKept(w, WriteReturns(true), id, key, last, altered);
  }

  // ---------------------------------------------------------------- how an offset gets to disk

  /** A handling that begins is running; when it ends, its batch is settled as it ended, its
      positions are accepted if it ended well, and no other handling or position is touched. */
  lemma {:induction false} HandlingSettles(w: World, h: nat, ok: bool, other: nat, id: string, q: nat)
    requires h < |w.queues.handlings| && other < |w.queues.handlings| && other != h
    ensures MayStart(w.queues, h) ==>
              && Next(w, Start(h)).queues.handlings[h].status == Running
              && Next(w, Start(h)).queues.handlings[other] == w.queues.handlings[other]
              && Next(w, Start(h)).accepted == w.accepted
    ensures w.queues.handlings[h].status == Running ==>
              var v, batch := Next(w, Finish(h, ok)), w.queues.handlings[h];
              && v.queues.handlings[h].status == Settled(ok)
              && v.queues.handlings[other] == w.queues.handlings[other]
              && ((id, q) in v.accepted <==>
                    (id, q) in w.accepted || (ok && id == batch.input && batch.from <= q < batch.to))
  {
  }

  /** The last handling of a queue, once settled, takes the queue with it; another one leaves it. */
  lemma {:induction false} QueueIsForgotten(w: World, id: string, h: nat)
    requires IsSettled(w.queues, h) && id in w.queues.tails
    ensures var tails := Next(w, Forget(id, h)).queues.tails;
            tails == if w.queues.tails[id] == h then w.queues.tails - {id} else w.queues.tails
  {
  }

  /** Nothing stands in the way of a batch of this input, and no flush runs. */
  predicate AtRest(w: World, id: string) {
    && w.store.phase.Idle? && w.store.saveHolds == {} && !w.store.saveFailed && id in w.codex
    && (id in w.queues.tails ==> IsSettled(w.queues, w.queues.tails[id]))
  }

  /** The input emits a batch, moves its offset past it, and saves: the save waits. */
  function Emitted(w: World, id: string, to: nat): World {
    Next(Next(Next(w, Emit(id, to)), Update(id, InputState(Some(to), map[], None))), Save)
  }

  /** The outputs accept the batch. */
  function Handled(w: World, h: nat): World {
    Next(Next(Next(Next(w, Start(h)), Finish(h, true)), Callback(h)), HoldsReleased)
  }

  lemma {:induction false} SaveWaits(w: World, id: string, to: nat)
    requires AtRest(w, id) && Cursor(w, id) <= to
    ensures var v, h := Emitted(w, id, to), |w.queues.handlings|;
            && v.store.phase == Awaiting({h}) && v.store.saveHolds == {h} && !v.store.saveFailed
            && v.disk == w.disk && id in v.store.states && Get(v.store.states, id).lastOffset == Some(to)
            && |v.queues.handlings| == h + 1 && MayStart(v.queues, h)
            && v.store.persistedRevision == w.store.persistedRevision && v.store.revision == w.store.revision + 1
            && Find(v.store.inputRevisions, id) == Some(v.store.revision)
  {
    var w1 := Next(w, Emit(id, to));
    assert w1.store.saveHolds == {|w.queues.handlings|};
    var w2 := Next(w1, Update(id, InputState(Some(to), map[], None)));
    assert w2.store.revision == w.store.revision + 1;
  }

  lemma {:induction false} AcceptanceReleases(v: World, h: nat)
    requires v.store.phase == Awaiting({h}) && v.store.saveHolds == {h} && !v.store.saveFailed
    requires MayStart(v.queues, h) && v.store.persistedRevision < v.store.revision
    ensures var u := Handled(v, h);
            && u.store.phase == Writing(v.store.revision, v.store.states) && u.disk == v.disk
            && u.store == v.store.(phase := u.store.phase, saveHolds := {})
            && forall q :: v.queues.handlings[h].from <= q < v.queues.handlings[h].to ==>
                 (v.queues.handlings[h].input, q) in u.accepted
  {
    var v1 := Next(v, Start(h));
    var v2 := Next(v1, Finish(h, true));
    assert v2.queues.handlings[h].status == Settled(true);
    var v3 := Next(v2, Callback(h));
    assert v3.store.saveHolds == {} && !v3.store.saveFailed;
    assert AllAccepted(v3);
  }

  /** Undisturbed, a Codex offset does get to disk: the save issued right after the batch waits for
      it with the old offset on disk, and once the outputs have accepted it the new one is written. */
  lemma {:induction false} OffsetGetsToDisk(w: World, id: string, to: nat)
    requires AtRest(w, id) && Cursor(w, id) <= to && w.store.persistedRevision <= w.store.revision
    ensures var waiting := Emitted(w, id, to);
            var written := Next(Handled(waiting, |w.queues.handlings|), WriteLands);
            && waiting.disk == w.disk
            && Get(written.disk, id).lastOffset == Some(to)
            && Next(written, WriteReturns(true)).store.phase == Exiting(true)
            && InputIsPersisted(Next(written, WriteReturns(true)).store, id)
  {
    SaveWaits(w, id, to);
    var waiting := Emitted(w, id, to);
    AcceptanceReleases(waiting, |w.queues.handlings|);
    var u := Handled(waiting, |w.queues.handlings|);
    assert u.store.states == waiting.store.states && u.store.inputRevisions == waiting.store.inputRevisions;
    WritingEnds(u, id);
  }

  lemma {:induction false} WritingEnds(u: World, id: string)
    requires u.store.phase == Writing(u.store.revision, u.store.states)
    requires u.store.saveHolds == {} && !u.store.saveFailed
    requires Find(u.store.inputRevisions, id) == Some(u.store.revision) && id in u.store.states
    ensures var written := Next(u, WriteLands);
            && written.disk == u.store.states
            && Next(written, WriteReturns(true)).store.phase == Exiting(true)
            && InputIsPersisted(Next(written, WriteReturns(true)).store, id)
  {
    var written := Next(u, WriteLands);
    assert Landed(written);
    var s := Published(written.store, u.store.revision);
    assert Find(s.inputRevisions, id) == Some(u.store.revision);
    assert Next(written, WriteReturns(true)).store == LoopStep(s);
  }
}
