/** What the durability protocol guarantees over every run: an offset on disk claims only
    accepted source positions, batches of one input are handled in emission order, a rejected
    batch freezes the disk, and what a resolved `save` does and does not promise. */
module CheckpointSafety {
  import opened Wrappers
  import opened Checkpoints
  import opened CheckpointProtocol

  // ---------------------------------------------------------------- offsets and acceptance

  predicate Covered(accepted: set<(string, nat)>, id: string, n: nat) {
    forall q: nat :: q < n ==> (id, q) in accepted
  }

  predicate StatesCovered(w: World, states: States) {
    forall id <- w.codex :: Covered(w.accepted, id, Get(states, id).Offset())
  }

  predicate Holding(w: World, h: nat, id: string, q: nat) {
    && h in w.store.saveHolds && h < |w.queues.handlings|
    && w.queues.handlings[h].input == id && w.queues.handlings[h].from <= q < w.queues.handlings[h].to
  }

  ghost predicate Pending(w: World, id: string, q: nat) {
    exists h: nat :: Holding(w, h, id, q)
  }

  ghost predicate EmittedSafe(w: World, id: string) {
    forall q: nat :: q < Cursor(w, id) ==> (id, q) in w.accepted || Pending(w, id, q)
  }

  predicate SettledAccepted(w: World, h: nat)
    requires h < |w.queues.handlings|
  {
    w.queues.handlings[h].status == Settled(true) ==> Positions(w.queues.handlings[h]) <= w.accepted
  }

  ghost predicate Safe(w: World) {
    && StatesCovered(w, w.disk)
    && (w.store.phase.Writing? ==> StatesCovered(w, w.store.phase.snapshot))
    && (forall id <- w.codex :: Get(w.store.states, id).Offset() <= Cursor(w, id))
    && (forall h <- w.store.saveHolds :: h < |w.queues.handlings|)
    && (forall h: nat :: h < |w.queues.handlings| ==> SettledAccepted(w, h))
    && (!w.store.saveFailed ==> forall id <- w.codex :: EmittedSafe(w, id))
  }

  /** With no hold open and none failed, everything emitted is accepted, so memory may be saved. */
  lemma {:induction false} QuietMemoryIsCovered(w: World)
    requires Safe(w) && w.store.saveHolds == {} && !w.store.saveFailed
    ensures StatesCovered(w, w.store.states)
  {
    forall id <- w.codex ensures Covered(w.accepted, id, Get(w.store.states, id).Offset()) {
      assert EmittedSafe(w, id);
      forall q: nat | q < Get(w.store.states, id).Offset() ensures (id, q) in w.accepted {
        assert !Pending(w, id, q);
      }
    }
  }

  /** Steps that leave queues, cursors and what is accepted alone. */
  lemma {:induction false} SafeStore(w: World, v: World)
    requires Safe(w)
    requires v.codex == w.codex && v.queues == w.queues && v.cursors == w.cursors && v.accepted == w.accepted
    requires v.store.saveHolds == w.store.saveHolds && v.store.saveFailed == w.store.saveFailed
    requires forall id <- w.codex :: Get(v.store.states, id).Offset() <= Cursor(w, id)
    requires StatesCovered(w, v.disk)
    requires v.store.phase.Writing? ==> StatesCovered(w, v.store.phase.snapshot)
    ensures Safe(v)
  {
    forall h: nat | h < |v.queues.handlings| ensures SettledAccepted(v, h) { assert SettledAccepted(w, h); }
    if !w.store.saveFailed {
      forall id <- w.codex ensures EmittedSafe(v, id) {
        assert EmittedSafe(w, id);
        forall q: nat | q < Cursor(v, id) ensures (id, q) in v.accepted || Pending(v, id, q) {
          if (id, q) !in w.accepted {
            var h: nat :| Holding(w, h, id, q);
            assert Holding(v, h, id, q);
          }
        }
      }
    }
  }

  lemma {:induction false} SafeLoop(w: World)
    requires Safe(w)
    ensures LoopStep(w.store).phase.Writing? ==> StatesCovered(w, LoopStep(w.store).phase.snapshot)
  {
    if w.store.saveHolds == {} && !w.store.saveFailed { QuietMemoryIsCovered(w); }
  }

  lemma {:induction false} SafeEmit(w: World, id: string, to: nat)
    requires Safe(w)
    ensures Safe(Next(w, Emit(id, to)))
  {
    var v := Next(w, Emit(id, to));
    forall h: nat | h < |v.queues.handlings| ensures SettledAccepted(v, h) {
      if h < |w.queues.handlings| { assert SettledAccepted(w, h); }
    }
    if !w.store.saveFailed && Cursor(w, id) <= to {
      forall o <- v.codex ensures EmittedSafe(v, o) {
        assert EmittedSafe(w, o);
        forall q: nat | q < Cursor(v, o) ensures (o, q) in v.accepted || Pending(v, o, q) {
          if q < Cursor(w, o) {
            if (o, q) !in w.accepted {
              var h: nat :| Holding(w, h, o, q);
              assert Holding(v, h, o, q);
            }
          } else {
            assert Holding(v, |w.queues.handlings|, o, q);
          }
        }
      }
    }
  }

  /** Steps on the queues that keep every handling's input and positions, and every acceptance. */
  lemma {:induction false} SafeQueues(w: World, v: World)
    requires Safe(w)
    requires v.codex == w.codex && v.store == w.store && v.disk == w.disk && v.cursors == w.cursors
    requires w.accepted <= v.accepted && |v.queues.handlings| == |w.queues.handlings|
    requires forall h: nat :: h < |w.queues.handlings| ==>
               v.queues.handlings[h] == w.queues.handlings[h].(status := v.queues.handlings[h].status)
    requires forall h: nat :: h < |v.queues.handlings| ==> SettledAccepted(v, h)
    ensures Safe(v)
  {
    forall id <- w.codex ensures Covered(v.accepted, id, Get(v.disk, id).Offset()) {
      assert Covered(w.accepted, id, Get(w.disk, id).Offset());
    }
    if w.store.phase.Writing? {
      forall id <- w.codex ensures Covered(v.accepted, id, Get(w.store.phase.snapshot, id).Offset()) {
        assert Covered(w.accepted, id, Get(w.store.phase.snapshot, id).Offset());
      }
    }
    if !w.store.saveFailed {
      forall id <- w.codex ensures EmittedSafe(v, id) {
        assert EmittedSafe(w, id);
        forall q: nat | q < Cursor(v, id) ensures (id, q) in v.accepted || Pending(v, id, q) {
          if (id, q) !in w.accepted {
            var h: nat :| Holding(w, h, id, q);
            assert Holding(v, h, id, q);
          }
        }
      }
    }
  }

  lemma {:induction false} SafeFinish(w: World, h: nat, ok: bool)
    requires Safe(w) && h < |w.queues.handlings|
    ensures Safe(Finished(w, h, ok))
  {
    var v := Finished(w, h, ok);
    forall i: nat | i < |v.queues.handlings| ensures SettledAccepted(v, i) {
      assert SettledAccepted(w, i);
      assert Positions(v.queues.handlings[i]) == Positions(w.queues.handlings[i]);
    }
    SafeQueues(w, v);
  }

  lemma {:induction false} SafeStart(w: World, h: nat)
    requires Safe(w) && h < |w.queues.handlings|
    ensures Safe(w.(queues := WithStatus(w.queues, h, Running)))
  {
    var v := w.(queues := WithStatus(w.queues, h, Running));
    forall i: nat | i < |v.queues.handlings| ensures SettledAccepted(v, i) { assert SettledAccepted(w, i); }
    SafeQueues(w, v);
  }

  lemma {:induction false} SafeForget(w: World, id: string, h: nat)
    requires Safe(w)
    ensures Safe(w.(queues := Forgotten(w.queues, id, h)))
  {
    var v := w.(queues := Forgotten(w.queues, id, h));
    forall i: nat | i < |v.queues.handlings| ensures SettledAccepted(v, i) { assert SettledAccepted(w, i); }
    SafeQueues(w, v);
  }

  lemma {:induction false} SafeCallback(w: World, h: nat)
    requires Safe(w) && h in w.store.saveHolds && IsSettled(w.queues, h)
    ensures Safe(w.(store := SettleStep(w.store, h, w.queues.handlings[h].status.accepted)))
  {
    var v := w.(store := SettleStep(w.store, h, w.queues.handlings[h].status.accepted));
    assert SettledAccepted(w, h);
    forall i: nat | i < |v.queues.handlings| ensures SettledAccepted(v, i) { assert SettledAccepted(w, i); }
    if !v.store.saveFailed {
      forall id <- w.codex ensures EmittedSafe(v, id) {
        assert EmittedSafe(w, id);
        forall q: nat | q < Cursor(v, id) ensures (id, q) in v.accepted || Pending(v, id, q) {
          if (id, q) !in w.accepted {
            assert (id, q) !in Positions(w.queues.handlings[h]);
            var i: nat :| Holding(w, i, id, q);
            assert Holding(v, i, id, q);
          }
        }
      }
    }
  }

  lemma {:induction false} SafeRestart(w: World)
    requires Safe(w)
    ensures Safe(Restarted(w))
  {
    var v := Restarted(w);
    assert StatesCovered(v, v.disk);
    forall id <- v.codex ensures EmittedSafe(v, id) && Get(v.store.states, id).Offset() <= Cursor(v, id) {
      assert Covered(w.accepted, id, Get(w.disk, id).Offset());
    }
  }

  lemma {:induction false} SafeSave(w: World)
    requires Safe(w)
    ensures Safe(Saved(w))
  {
    SafeLoop(w);
    SafeStore(w, Saved(w));
  }

  lemma {:induction false} SafeHolds(w: World, step: Step)
    requires Safe(w) && (step.HoldsReleased? || step.HoldsRejected?)
    ensures Safe(Next(w, step))
  {
    SafeLoop(w);
    QuietHoldStep(w, step);
    SafeStore(w, Next(w, step));
  }

  lemma {:induction false} SafeWrite(w: World, step: Step)
    requires Safe(w) && (step.WriteLands? || step.FinallyRuns?)
    ensures Safe(Next(w, step))
  {
    SafeStore(w, Next(w, step));
  }

  lemma {:induction false} SafeWriteReturns(w: World, ok: bool)
    requires Safe(w) && w.store.phase.Writing?
    ensures Safe(Looped(w, if ok then WriteReturnedStep(w.store) else w.store.(phase := Exiting(false))))
  {
    if ok {
      var p := w.(store := Published(w.store, w.store.phase.target));
      SafeStore(w, p);
      SafeLoop(p);
      SafeStore(p, Looped(w, WriteReturnedStep(w.store)));
    } else {
      SafeStore(w, Looped(w, w.store.(phase := Exiting(false))));
    }
  }

  lemma {:induction false} SafeChange(w: World, id: string, state: InputState)
    requires Safe(w) && MayAdvance(w, id, state.Offset())
    ensures Safe(Remember(w, SetStep(w.store, id, state)))
  {
    SafeStore(w, Remember(w, SetStep(w.store, id, state)));
  }

  lemma {:induction false} SafeDelete(w: World, id: string)
    requires Safe(w)
    ensures Safe(Remember(w, DeleteStep(w.store, id)))
  {
    SafeStore(w, Remember(w, DeleteStep(w.store, id)));
  }

  lemma {:induction false} SafeKept(w: World, step: Step)
    requires Safe(w)
    ensures Safe(Next(w, step))
  {
    match step
    case Emit(id, to) => SafeEmit(w, id, to);
    case Set(id, state) => if MayAdvance(w, id, state.Offset()) { SafeChange(w, id, state); }
    case Update(id, partial) =>
      var state := Merged(Get(w.store.states, id), partial);
      if MayAdvance(w, id, state.Offset()) { SafeChange(w, id, state); }
    case Delete(id) => SafeDelete(w, id);
    case Start(h) => if MayStart(w.queues, h) { SafeStart(w, h); }
    case Finish(h, ok) => if h < |w.queues.handlings| { SafeFinish(w, h, ok); }
    case Callback(h) => if h in w.store.saveHolds && IsSettled(w.queues, h) { SafeCallback(w, h); }
    case Forget(id, h) => SafeForget(w, id, h);
    case WriteReturns(ok) => if w.store.phase.Writing? { SafeWriteReturns(w, ok); }
    case Restart => SafeRestart(w);
    case Save => SafeSave(w);
    case HoldsReleased => SafeHolds(w, step);
    case HoldsRejected => SafeHolds(w, step);
    case WriteLands => SafeWrite(w, step);
    case FinallyRuns => SafeWrite(w, step);
  }

  lemma {:induction false} SafeAlways(w: World, steps: seq<Step>)
    requires Safe(w)
    ensures Safe(Run(w, steps))
    decreases |steps|
  {
    if steps != [] {
      SafeKept(w, steps[0]);
      SafeAlways(Next(w, steps[0]), steps[1..]);
    }
  }

  /** Whatever is emitted, changed, settled, saved, lost and restarted, in whatever order: every
      source position that a Codex offset on disk claims was accepted by the outputs. */
  lemma {:induction false} OffsetOnDiskIsAccepted(codex: set<string>, steps: seq<Step>, id: string, q: nat)
    requires id in codex
    ensures var w := Run(Initial(codex), steps);
            q < Get(w.disk, id).Offset() ==> (id, q) in w.accepted
  {
    var w := Run(Initial(codex), steps);
    assert EmittedSafe(Initial(codex), id);
    SafeInitially(codex);
    SafeAlways(Initial(codex), steps);
    SameCodex(Initial(codex), steps);
    assert Covered(w.accepted, id, Get(w.disk, id).Offset());
  }

  lemma {:induction false} SafeInitially(codex: set<string>)
    ensures Safe(Initial(codex))
  {
    forall id <- codex ensures EmittedSafe(Initial(codex), id) {}
  }

  lemma {:induction false} SameCodex(w: World, steps: seq<Step>)
    ensures Run(w, steps).codex == w.codex
    decreases |steps|
  {
    if steps != [] { SameCodex(Next(w, steps[0]), steps[1..]); }
  }

  // ---------------------------------------------------------------- snapshots

  /** Only the flush in flight writes the disk, and a snapshot is the memory of a moment at which
      no hold was open and none had failed. */
  lemma {:induction false} SnapshotsAreClean(w: World, step: Step)
    ensures var v := Next(w, step);
            && (v.disk != w.disk ==> step == WriteLands && w.store.phase.Writing? && v.disk == w.store.phase.snapshot)
            && ((v.store.phase.Writing? && v.store.phase != w.store.phase) ==>
                  && v.store.saveHolds == {} && !v.store.saveFailed
                  && v.store.phase == Writing(v.store.revision, v.store.states))
  {
    if ChangesBooks(w, step) {
    } else if step == WriteLands {
    } else {
      CleanQuietStep(w, step);
    }
  }

  lemma {:induction false} CleanQuietStep(w: World, step: Step)
    requires !ChangesBooks(w, step) && step != WriteLands
    ensures var v := Next(w, step);
            && v.disk == w.disk
            && ((v.store.phase.Writing? && v.store.phase != w.store.phase) ==>
                  && v.store.saveHolds == {} && !v.store.saveFailed
                  && v.store.phase == Writing(v.store.revision, v.store.states))
  {
    if IsQueueStep(step) { QuietQueueStep(w, step); }
  }

  // ---------------------------------------------------------------- after a rejection

  predicate Frozen(w: World, before: States, inFlight: States) {
    && w.store.saveFailed
    && (w.disk == before || w.disk == inFlight)
    && (w.store.phase.Writing? ==> w.store.phase.snapshot == inFlight)
  }

  /** Once a hold was rejected the disk stays as it is or takes the one snapshot already in
      flight, whatever runs next short of a restart. */
  lemma {:induction false} RejectionFreezesDisk(w: World, steps: seq<Step>)
    requires w.store.saveFailed && Restart !in steps
    ensures var v := Run(w, steps);
            || v.disk == w.disk
            || (w.store.phase.Writing? && v.disk == w.store.phase.snapshot)
  {
    FrozenRun(w, steps, w.disk, if w.store.phase.Writing? then w.store.phase.snapshot else w.disk);
  }

  lemma {:induction false} FrozenRun(w: World, steps: seq<Step>, before: States, inFlight: States)
    requires Frozen(w, before, inFlight) && Restart !in steps
    ensures Frozen(Run(w, steps), before, inFlight)
    decreases |steps|
  {
    if steps != [] {
      assert steps[0] != Restart;
      SnapshotsAreClean(w, steps[0]);
      FailureSticks(w, steps[0]);
      FrozenRun(Next(w, steps[0]), steps[1..], before, inFlight);
    }
  }

  lemma {:induction false} FailureSticks(w: World, step: Step)
    requires w.store.saveFailed && step != Restart
    ensures Next(w, step).store.saveFailed
  {
  }

  // ---------------------------------------------------------------- order of handling

  predicate Ordered(q: Queues) {
    forall i, j :: 0 <= i < j < |q.handlings| && q.handlings[i].input == q.handlings[j].input ==>
      q.handlings[j].status.Waiting? || q.handlings[i].status.Settled?
  }

  /** A handling is chained to the one before it on its input, or all of those are settled. */
  predicate LinkedAt(q: Queues, j: nat)
    requires j < |q.handlings|
  {
    match q.handlings[j].previous
    case None => forall i :: 0 <= i < j && q.handlings[i].input == q.handlings[j].input ==> q.handlings[i].status.Settled?
    case Some(p) =>
      && p < j && q.handlings[p].input == q.handlings[j].input
      && forall i :: p < i < j ==> q.handlings[i].input != q.handlings[j].input
  }

  predicate TailAt(q: Queues, id: string)
    requires id in q.tails
  {
    && q.tails[id] < |q.handlings| && q.handlings[q.tails[id]].input == id
    && forall i :: q.tails[id] < i < |q.handlings| ==> q.handlings[i].input != id
  }

  predicate Chained(q: Queues) {
    && Ordered(q)
    && (forall j: nat :: j < |q.handlings| ==> LinkedAt(q, j))
    && (forall id <- q.tails :: TailAt(q, id))
    && (forall i :: 0 <= i < |q.handlings| && q.handlings[i].input !in q.tails ==> q.handlings[i].status.Settled?)
  }

  lemma {:induction false} ChainedEnqueue(q: Queues, id: string, from: nat, to: nat)
    requires Chained(q)
    ensures Chained(Enqueued(q, id, from, to))
  {
    var v := Enqueued(q, id, from, to);
    forall j: nat | j < |v.handlings| ensures LinkedAt(v, j) {
      if j < |q.handlings| { assert LinkedAt(q, j); }
    }
    forall o <- v.tails ensures TailAt(v, o) {
      if o != id { assert TailAt(q, o); }
    }
  }

  lemma {:induction false} ChainedStatus(q: Queues, h: nat, status: Status)
    requires Chained(q) && h < |q.handlings|
    requires MayStart(q, h) || (q.handlings[h].status.Running? && status.Settled?)
    ensures Chained(WithStatus(q, h, status))
  {
    var v := WithStatus(q, h, status);
    assert LinkedAt(q, h);
    forall j: nat | j < |v.handlings| ensures LinkedAt(v, j) { assert LinkedAt(q, j); }
    forall o <- v.tails ensures TailAt(v, o) { assert TailAt(q, o); }
  }

  lemma {:induction false} ChainedForget(q: Queues, id: string, h: nat)
    requires Chained(q) && IsSettled(q, h)
    ensures Chained(Forgotten(q, id, h))
  {
    var v := Forgotten(q, id, h);
    forall j: nat | j < |v.handlings| ensures LinkedAt(v, j) { assert LinkedAt(q, j); }
    forall o <- v.tails ensures TailAt(v, o) { assert TailAt(q, o); }
    if id in q.tails { assert TailAt(q, id); }
  }

  lemma {:induction false} ChainedKept(w: World, step: Step)
    requires Chained(w.queues)
    ensures Chained(Next(w, step).queues)
  {
    match step
    case Emit(id, to) =>
      if Cursor(w, id) <= to && !w.store.saveFailed { ChainedEnqueue(w.queues, id, Cursor(w, id), to); }
    case Start(h) => if MayStart(w.queues, h) { ChainedStatus(w.queues, h, Running); }
    case Finish(h, ok) =>
      if h < |w.queues.handlings| && w.queues.handlings[h].status.Running? { ChainedStatus(w.queues, h, Settled(ok)); }
    case Forget(id, h) => if IsSettled(w.queues, h) { ChainedForget(w.queues, id, h); }
    case _ =>
  }

  lemma {:induction false} ChainedAlways(w: World, steps: seq<Step>)
    requires Chained(w.queues)
    ensures Chained(Run(w, steps).queues)
    decreases |steps|
  {
    if steps != [] {
      ChainedKept(w, steps[0]);
      ChainedAlways(Next(w, steps[0]), steps[1..]);
    }
  }

  /** In every run, when the handling of a batch has begun, the handling of every batch that its
      input emitted before has ended: one at a time, in emission order, failures included. */
  lemma {:induction false} HandledOneAtATime(codex: set<string>, steps: seq<Step>, i: nat, j: nat)
    requires i < j < |Run(Initial(codex), steps).queues.handlings|
    ensures var hs := Run(Initial(codex), steps).queues.handlings;
            hs[i].input == hs[j].input && !hs[j].status.Waiting? ==> hs[i].status.Settled?
  {
    ChainedAlways(Initial(codex), steps);
  }

  /** Draining an input's queue may end when the queue is gone, or when the promise it awaited
      is still the last one. Then nothing of that input is left to handle. */
  lemma {:induction false} DrainedMeansSettled(q: Queues, id: string, i: nat)
    requires Chained(q) && i < |q.handlings| && q.handlings[i].input == id
    requires id !in q.tails || IsSettled(q, q.tails[id])
    ensures q.handlings[i].status.Settled?
  {
    if id in q.tails { assert TailAt(q, id); }
  }

  // ---------------------------------------------------------------- what a resolved save means

  predicate CallKnown(w: World, c: Call) {
    && c.flush <= |w.exits|
    && (c.flush == |w.exits| ==>
          !c.late && c.revision <= w.store.revision && (w.store.phase.Awaiting? || w.store.phase.Writing?))
    && (c.flush < |w.exits| && w.exits[c.flush].Some? ==> (c.revision <= w.exits[c.flush].value <==> !c.late))
  }

  predicate Answered(w: World) {
    && w.store.persistedRevision <= w.store.revision
    && (w.store.phase.Writing? ==> w.store.persistedRevision < w.store.phase.target <= w.store.revision)
    && (forall i :: 0 <= i < |w.exits| && w.exits[i].Some? ==> w.exits[i].value <= w.store.persistedRevision)
    && (w.store.phase.Exiting? ==>
          && |w.exits| > 0
          && w.exits[|w.exits| - 1] == if w.store.phase.resolved then Some(w.store.persistedRevision) else None)
    && (forall i :: 0 <= i < |w.calls| ==> CallKnown(w, w.calls[i]))
  }

  lemma {:induction false} AnsweredSave(w: World)
    requires Answered(w)
    ensures Answered(Saved(w))
  {
    var v := Saved(w);
    forall i | 0 <= i < |v.calls| ensures CallKnown(v, v.calls[i]) {
      if i < |w.calls| { assert CallKnown(w, w.calls[i]); }
    }
  }

  /** The flush loop goes on, or ends with everything persisted. */
  lemma {:induction false} AnsweredLoop(w: World, s: Store)
    requires Answered(w) && (w.store.phase.Awaiting? || w.store.phase.Writing?)
    requires s.revision == w.store.revision && w.store.persistedRevision <= s.persistedRevision <= s.revision
    requires s.phase == Exiting(true) ==> s.persistedRevision == s.revision
    requires s.phase.Writing? ==> s.persistedRevision < s.phase.target <= s.revision
    requires !s.phase.Idle?
    ensures Answered(Looped(w, s))
  {
    var v := Looped(w, s);
    forall i | 0 <= i < |v.calls| ensures CallKnown(v, v.calls[i]) { assert CallKnown(w, w.calls[i]); }
  }

  lemma {:induction false} AnsweredChange(w: World, s: Store)
    requires Answered(w)
    requires s.revision >= w.store.revision
    requires s.persistedRevision == w.store.persistedRevision && s.phase == w.store.phase
    ensures Answered(Remember(w, s))
  {
    var v := Remember(w, s);
    forall i | 0 <= i < |v.calls| ensures CallKnown(v, v.calls[i]) { assert CallKnown(w, w.calls[i]); }
  }

  lemma {:induction false} AnsweredElsewhere(w: World, v: World)
    requires Answered(w) && v.calls == w.calls && v.exits == w.exits
    requires v.store.revision == w.store.revision && v.store.persistedRevision == w.store.persistedRevision
    requires v.store.phase == w.store.phase || (w.store.phase.Exiting? && v.store.phase.Idle?)
    ensures Answered(v)
  {
    forall i | 0 <= i < |v.calls| ensures CallKnown(v, v.calls[i]) { assert CallKnown(w, w.calls[i]); }
  }

  lemma {:induction false} AnsweredFlush(w: World, step: Step)
    requires Answered(w) && (step.HoldsReleased? || step.HoldsRejected? || step.WriteReturns?)
    ensures Answered(Next(w, step))
  {
    match step
    case HoldsReleased => if AllAccepted(w) { AnsweredLoop(w, LoopStep(w.store)); }
    case HoldsRejected => if SomeRejected(w) { AnsweredLoop(w, w.store.(phase := Exiting(false))); }
    case WriteReturns(ok) =>
      if w.store.phase.Writing? {
        AnsweredLoop(w, if ok then WriteReturnedStep(w.store) else w.store.(phase := Exiting(false)));
      }
  }

  lemma {:induction false} AnsweredKept(w: World, step: Step)
    requires Answered(w)
    ensures Answered(Next(w, step))
  {
    match step
    case Set(id, state) => AnsweredChange(w, SetStep(w.store, id, state));
    case Update(id, partial) => AnsweredChange(w, UpdateStep(w.store, id, partial));
    case Delete(id) => AnsweredChange(w, DeleteStep(w.store, id));
    case Save => AnsweredSave(w);
    case HoldsReleased => AnsweredFlush(w, step);
    case HoldsRejected => AnsweredFlush(w, step);
    case WriteReturns(ok) => AnsweredFlush(w, step);
    case Restart =>
    case _ => AnsweredElsewhere(w, Next(w, step));
  }

  lemma {:induction false} AnsweredAlways(w: World, steps: seq<Step>)
    requires Answered(w)
    ensures Answered(Run(w, steps))
    decreases |steps|
  {
    if steps != [] {
      AnsweredKept(w, steps[0]);
      AnsweredAlways(Next(w, steps[0]), steps[1..]);
    }
  }

  /** When the promise that a `save` call was given resolves, everything changed before the call
      is persisted if and only if the call did not come, with changes waiting, between the end of
      the flush loop and the `finally` that clears the promise. */
  lemma {:induction false} ResolvedSaveIsDurableIff(codex: set<string>, steps: seq<Step>, i: nat)
    requires i < |Run(Initial(codex), steps).calls|
    ensures var w := Run(Initial(codex), steps);
            var c := w.calls[i];
            c.flush < |w.exits| && w.exits[c.flush].Some? ==>
              && w.exits[c.flush].value <= w.store.persistedRevision
              && (c.revision <= w.exits[c.flush].value <==> !c.late)
  {
    var w := Run(Initial(codex), steps);
    AnsweredAlways(Initial(codex), steps);
    assert CallKnown(w, w.calls[i]);
  }

  /** A call in that window gets the promise of a flush that has already ended, and no flush follows. */
  lemma {:induction false} LateSave(w: World, id: string, state: InputState)
    requires Answered(w) && w.store.phase == Exiting(true) && !w.store.saveFailed && id !in w.codex
    ensures var v := Next(Next(Next(w, Set(id, state)), Save), FinallyRuns);
            && |v.calls| == |w.calls| + 1 && v.calls[|w.calls|].late
            && v.calls[|w.calls|].flush < |v.exits| && v.exits == w.exits
            && v.store.phase == Idle && v.disk == w.disk && v.diskRevision == w.diskRevision
            && v.store.states == w.store.states[id := state]
  {
    var w1 := Next(w, Set(id, state));
    assert w1.store.revision == w.store.revision + 1;
    var w2 := Next(w1, Save);
    assert w2.calls == w1.calls + [Call(|w1.exits| - 1, w1.store.revision, true)];
  }

  /** The flush loop has ended well and its `finally` has not run. */
  predicate InWindow(w: World) {
    w.store.phase == Exiting(true) && !w.store.saveFailed && w.codex == {} && "b" !in w.disk
  }

  lemma {:induction false} FirstFlush()
    ensures InWindow(Next(Next(Next(Next(Initial({}), Set("a", EMPTY)), Save), WriteLands), WriteReturns(true)))
  {
    var w1 := Next(Initial({}), Set("a", EMPTY));
    assert w1.store.states == map["a" := EMPTY];
    var w2 := Next(w1, Save);
    assert w2.store.phase == Writing(1, map["a" := EMPTY]);
    var w3 := Next(w2, WriteLands);
    assert Landed(w3);
  }

  lemma {:induction false} WindowIsReached()
    ensures exists steps: seq<Step> :: InWindow(Run(Initial({}), steps))
  {
    var w := Initial({});
    FirstFlush();
    RunLast(w, [], Set("a", EMPTY));
    RunLast(w, [Set("a", EMPTY)], Save);
    RunLast(w, [Set("a", EMPTY), Save], WriteLands);
    RunLast(w, [Set("a", EMPTY), Save, WriteLands], WriteReturns(true));
    var steps := [Set("a", EMPTY), Save, WriteLands] + [WriteReturns(true)];
    assert [Set("a", EMPTY), Save] + [WriteLands] == [Set("a", EMPTY), Save, WriteLands];
    assert [Set("a", EMPTY)] + [Save] == [Set("a", EMPTY), Save];
    assert [] + [Set("a", EMPTY)] == [Set("a", EMPTY)];
    assert InWindow(Run(w, steps));
  }

  predicate LostSave(w: World) {
    && |w.calls| > 0 && w.calls[|w.calls| - 1].late && w.calls[|w.calls| - 1].flush < |w.exits|
    && w.store.phase == Idle && w.store.states != w.disk
  }

  /** Such a call happens: its promise has resolved, its change is not on disk, no flush runs. */
  lemma {:induction false} LateSaveIsLost()
    ensures exists steps: seq<Step> :: LostSave(Run(Initial({}), steps))
  {
    WindowIsReached();
    var first: seq<Step> :| InWindow(Run(Initial({}), first));
    LateSaveAfter(first, Set("b", EMPTY));
  }

  lemma {:induction false} LateSaveAfter(first: seq<Step>, change: Step)
    requires InWindow(Run(Initial({}), first)) && change == Set("b", EMPTY)
    ensures LostSave(Run(Initial({}), first + [change] + [Save] + [FinallyRuns]))
  {
    var w := Run(Initial({}), first);
    AnsweredAlways(Initial({}), first);
    RunLast(Initial({}), first, change);
    RunLast(Initial({}), first + [change], Save);
    RunLast(Initial({}), first + [change] + [Save], FinallyRuns);
    LateSave(w, "b", EMPTY);
    assert "b" in w.store.states["b" := EMPTY];
  }

  lemma {:induction false} RunLast(w: World, steps: seq<Step>, last: Step)
    ensures Run(w, steps + [last]) == Next(Run(w, steps), last)
    decreases |steps|
  {
    if steps == [] {
      assert (steps + [last])[1..] == [];
    } else {
      assert (steps + [last])[1..] == steps[1..] + [last];
      RunLast(Next(w, steps[0]), steps[1..], last);
    }
  }
}
