/** The lock that Pilot's processes share around the patch file: a lock file with an owner token
    and a modification time, changed only by a process that holds a gate file. Any number of
    processes run; every file operation is one step; a process may die, fail or give up anywhere.

    Tokens are random in the program and never repeat here; `id` numbers the lock files created. */
module PatchLock {
  import opened Wrappers

  const STALE: nat := 30_000

  /** A file created and not yet written is empty. */
  datatype Owner = Empty | Token(token: nat)

  datatype LockFile = LockFile(owner: Owner, mtime: nat, id: nat)

  datatype Goal = Acquire(token: nat) | Release(token: nat)

  /** What a process does after it has let the gate go. */
  datatype After = Enter(token: nat) | Retry(token: nat) | Done

  /** Where a process stands; `gate` is its token in the gate file. */
  datatype Pc =
    | Idle
    | Dead
    | Gating(goal: Goal)
    | GateWriting(goal: Goal, gate: nat)
    | Entering(token: nat, gate: nat)
    | LockWriting(token: nat, gate: nat)
    | Statting(token: nat, gate: nat)
    | Deciding(token: nat, gate: nat, mtime: nat, id: nat)
    | Unlinking(token: nat, gate: nat, id: nat)
    | Reading(token: nat, gate: nat)
    | Dropping(token: nat, gate: nat)
    | LeavingGate(after: After, gate: nat)
    | UnlinkingGate(after: After, gate: nat)
    | Critical(token: nat)

  datatype State = State(gate: Option<Owner>, lock: Option<LockFile>, now: nat, unused: nat, procs: seq<Pc>)

  datatype Step =
    | Tick(ms: nat)
    | Begin(p: nat)
    | Advance(p: nat)
    | Finish(p: nat)
    | GiveUp(p: nat)
    | Fail(p: nat)
    | Crash(p: nat)

  function Goto(s: State, p: nat, pc: Pc): State
    requires p < |s.procs|
  {
    s.(procs := s.procs[p := pc])
  }

  function Resume(after: After): Pc {
    match after
    case Enter(t) => Critical(t)
    case Retry(t) => Gating(Acquire(t))
    case Done => Idle
  }

  /** The next file operation of process `p`, and the code up to the one after. */
  function Advanced(s: State, p: nat): State
    requires p < |s.procs|
  {
    match s.procs[p]
    case Gating(goal) =>
      if s.gate.None?
      then Goto(s, p, GateWriting(goal, s.unused)).(gate := Some(Empty), unused := s.unused + 1) else s
    case GateWriting(goal, g) =>
      var next := if goal.Acquire? then Entering(goal.token, g) else Reading(goal.token, g);
      Goto(s, p, next).(gate := Some(Token(g)))
    case Entering(t, g) =>
      if s.lock.None?
      then Goto(s, p, LockWriting(t, g)).(lock := Some(LockFile(Empty, s.now, s.unused)), unused := s.unused + 1)
      else Goto(s, p, Statting(t, g))
    case LockWriting(t, g) =>
      var v := Goto(s, p, LeavingGate(Enter(t), g));
      if s.lock.Some? then v.(lock := Some(LockFile(Token(t), s.now, s.lock.value.id))) else v
    case Statting(t, g) =>
      if s.lock.None? then Goto(s, p, LeavingGate(Retry(t), g))
      else Goto(s, p, Deciding(t, g, s.lock.value.mtime, s.lock.value.id))
    case Deciding(t, g, mtime, id) =>
      Goto(s, p, if s.now - mtime > STALE then Unlinking(t, g, id) else LeavingGate(Retry(t), g))
    case Unlinking(t, g, _) => Goto(s, p, LeavingGate(Retry(t), g)).(lock := None)
    case Reading(t, g) =>
      Goto(s, p, if s.lock.Some? && s.lock.value.owner == Token(t) then Dropping(t, g) else LeavingGate(Done, g))
    case Dropping(t, g) => Goto(s, p, LeavingGate(Done, g)).(lock := None)
    case LeavingGate(after, g) =>
      Goto(s, p, if s.gate == Some(Token(g)) then UnlinkingGate(after, g) else Resume(after))
    case UnlinkingGate(after, g) => Goto(s, p, Resume(after)).(gate := None)
    case _ => s
  }

  /** The file operation fails: the exception ends the attempt, but the gate is let go first. */
  function Failed(s: State, p: nat): State
    requires p < |s.procs|
  {
    match s.procs[p]
    case GateWriting(_, _) => Goto(s, p, Idle)
    case Entering(_, g) => Goto(s, p, LeavingGate(Done, g))
    case LockWriting(_, g) => Goto(s, p, LeavingGate(Done, g))
    case Statting(_, g) => Goto(s, p, LeavingGate(Done, g))
    case Unlinking(_, g, _) => Goto(s, p, LeavingGate(Done, g))
    case Reading(_, g) => Goto(s, p, LeavingGate(Done, g))
    case Dropping(_, g) => Goto(s, p, LeavingGate(Done, g))
    case LeavingGate(after, _) => Goto(s, p, Resume(after))
    case UnlinkingGate(after, _) => Goto(s, p, Resume(after))
    case _ => s
  }

  /** One step; a step that is not enabled changes nothing. */
  function Next(s: State, step: Step): State {
    if step.Tick? then s.(now := s.now + step.ms)
    else if step.p >= |s.procs| then s
    else
      match step
      case Begin(p) =>
        if s.procs[p].Idle? then Goto(s, p, Gating(Acquire(s.unused))).(unused := s.unused + 1) else s
      case Advance(p) => Advanced(s, p)
      case Finish(p) => if s.procs[p].Critical? then Goto(s, p, Gating(Release(s.procs[p].token))) else s
      case GiveUp(p) => if s.procs[p].Gating? then Goto(s, p, Idle) else s
      case Fail(p) => Failed(s, p)
      case Crash(p) => Goto(s, p, Dead)
  }

  function Run(s: State, steps: seq<Step>): State
    decreases |steps|
  {
    if steps == [] then s else Run(Next(s, steps[0]), steps[1..])
  }

  /** Any number of idle processes, and whatever lock file an earlier life has left. */
  predicate Initial(s: State) {
    && s.gate.None? && (forall p :: 0 <= p < |s.procs| ==> s.procs[p].Idle?)
    && (s.lock.Some? ==> s.lock.value.id < s.unused
                         && (s.lock.value.owner.Token? ==> s.lock.value.owner.token < s.unused))
  }

  // ---------------------------------------------------------------- what every step keeps

  predicate HoldsGate(pc: Pc) {
    !pc.Idle? && !pc.Dead? && !pc.Gating? && !pc.Critical?
  }

  /** The token under which a process acquires, holds or releases the lock. */
  function TokenOf(pc: Pc): Option<nat> {
    match pc
    case Idle => None
    case Dead => None
    case Gating(goal) => Some(goal.token)
    case GateWriting(goal, _) => Some(goal.token)
    case LeavingGate(after, _) => if after.Done? then None else Some(after.token)
    case UnlinkingGate(after, _) => if after.Done? then None else Some(after.token)
    case _ => Some(pc.token)
  }

  predicate LockIs(s: State, owner: Owner) { s.lock.Some? && s.lock.value.owner == owner }

  /** What a process may rely on. */
  predicate Local(s: State, pc: Pc) {
    && (TokenOf(pc).Some? ==> TokenOf(pc).value < s.unused)
    && (HoldsGate(pc) ==> s.gate == Some(if pc.GateWriting? then Empty else Token(pc.gate)))
    && (pc.LockWriting? ==> LockIs(s, Empty))
    && (pc.LeavingGate? && pc.after.Enter? ==> LockIs(s, Token(pc.after.token)))
    && (pc.UnlinkingGate? && pc.after.Enter? ==> LockIs(s, Token(pc.after.token)))
    && (pc.Deciding? ==> s.lock.Some? && s.lock.value.id == pc.id && s.lock.value.mtime == pc.mtime)
    && (pc.Unlinking? ==> s.lock.Some? && s.lock.value.id == pc.id)
    && (pc.Dropping? ==> LockIs(s, Token(pc.token)))
  }

  /** Two processes never both hold the gate, and never share a token. */
  predicate Apart(a: Pc, b: Pc) {
    && !(HoldsGate(a) && HoldsGate(b))
    && !(TokenOf(a).Some? && TokenOf(a) == TokenOf(b))
  }

  predicate Sound(s: State) {
    && (forall p :: 0 <= p < |s.procs| ==> Local(s, s.procs[p]))
    && (forall p, q :: 0 <= p < |s.procs| && 0 <= q < |s.procs| && p != q ==> Apart(s.procs[p], s.procs[q]))
  }

  /** Moving one process: itself, and what the files say to the others. */
  lemma {:induction false} SoundMove(s: State, v: State, p: nat)
    requires Sound(s) && p < |s.procs| == |v.procs| && v.procs == s.procs[p := v.procs[p]]
    requires Local(v, v.procs[p]) && s.unused <= v.unused
    requires HoldsGate(v.procs[p]) ==> HoldsGate(s.procs[p]) || s.gate.None?
    requires TokenOf(v.procs[p]) == TokenOf(s.procs[p]) || TokenOf(v.procs[p]) == None
               || TokenOf(v.procs[p]) == Some(s.unused)
    requires v.gate == s.gate || s.gate.None? || HoldsGate(s.procs[p])
    requires v.lock == s.lock || HoldsGate(s.procs[p])
    ensures Sound(v)
  {
    forall q | 0 <= q < |v.procs| && q != p ensures Local(v, v.procs[q]) && Apart(v.procs[p], v.procs[q]) {
      assert v.procs[q] == s.procs[q] && Local(s, s.procs[q]) && Apart(s.procs[p], s.procs[q]);
    }
  }

  lemma {:induction false} SoundAdvance(s: State, p: nat)
    requires Sound(s) && p < |s.procs|
    ensures Sound(Advanced(s, p))
  {
    var v := Advanced(s, p);
    assert Local(s, s.procs[p]);
    if v != s { SoundMove(s, v, p); }
  }

  lemma {:induction false} SoundFail(s: State, p: nat)
    requires Sound(s) && p < |s.procs|
    ensures Sound(Failed(s, p))
  {
    var v := Failed(s, p);
    assert Local(s, s.procs[p]);
    if v != s { SoundMove(s, v, p); }
  }

  lemma {:induction false} SoundNext(s: State, step: Step)
    requires Sound(s)
    ensures Sound(Next(s, step))
  {
    match step
    case Tick(ms) =>
      var v := Next(s, step);
      forall p | 0 <= p < |v.procs| ensures Local(v, v.procs[p]) { assert Local(s, s.procs[p]); }
    case Advance(p) => if p < |s.procs| { SoundAdvance(s, p); }
    case Fail(p) => if p < |s.procs| { SoundFail(s, p); }
    case _ =>
      if step.p < |s.procs| && Next(s, step) != s {
        assert Local(s, s.procs[step.p]);
        SoundMove(s, Next(s, step), step.p);
      }
  }

  lemma {:induction false} SoundRun(s: State, steps: seq<Step>)
    requires Sound(s)
    ensures Sound(Run(s, steps))
    decreases |steps|
  {
    if steps != [] {
      SoundNext(s, steps[0]);
      SoundRun(Next(s, steps[0]), steps[1..]);
    }
  }

  /** In every run at most one process holds the gate. */
  lemma {:induction false} GateIsExclusive(s: State, steps: seq<Step>, p: nat, q: nat)
    requires Initial(s) && p < |Run(s, steps).procs| && q < |Run(s, steps).procs|
    ensures HoldsGate(Run(s, steps).procs[p]) && HoldsGate(Run(s, steps).procs[q]) ==> p == q
  {
    SoundRun(s, steps);
    var v := Run(s, steps);
    if p != q { assert Apart(v.procs[p], v.procs[q]); }
  }

  /** In every run, a stale check unlinks the very lock file that it looked at, and a release
      unlinks only a lock file with its own token. */
  lemma {:induction false} UnlinksAreExact(s: State, steps: seq<Step>, p: nat)
    requires Initial(s) && p < |Run(s, steps).procs|
    ensures var v := Run(s, steps);
            && (v.procs[p].Unlinking? ==> v.lock.Some? && v.lock.value.id == v.procs[p].id)
            && (v.procs[p].Dropping? ==> LockIs(v, Token(v.procs[p].token)))
  {
    SoundRun(s, steps);
    var v := Run(s, steps);
    assert Local(v, v.procs[p]);
  }

  /** A lock file goes only by these two unlinks. */
  lemma {:induction false} OnlyOwnersUnlink(s: State, step: Step)
    ensures s.lock.Some? && (Next(s, step).lock.None? || Next(s, step).lock.value.id != s.lock.value.id) ==>
              && step.Advance? && step.p < |s.procs|
              && (s.procs[step.p].Unlinking? || s.procs[step.p].Dropping?)
              && Next(s, step).lock.None?
  {
  }

  // ---------------------------------------------------------------- the critical section

  /** No process stays in the critical section longer than the stale limit. */
  predicate Timely(s: State) {
    forall p :: 0 <= p < |s.procs| && s.procs[p].Critical? && s.lock.Some? ==> s.now - s.lock.value.mtime <= STALE
  }

  predicate TimelyRun(s: State, steps: seq<Step>)
    decreases |steps|
  {
    Timely(s) && (steps != [] ==> TimelyRun(Next(s, steps[0]), steps[1..]))
  }

  /** Whoever is in the critical section owns the lock file, and nobody is about to unlink it as stale. */
  predicate Owned(s: State) {
    && (forall p :: 0 <= p < |s.procs| && s.procs[p].Critical? ==> LockIs(s, Token(s.procs[p].token)))
    && (forall p, q :: 0 <= p < |s.procs| && 0 <= q < |s.procs| ==> !(s.procs[p].Unlinking? && s.procs[q].Critical?))
  }

  lemma {:induction false} OwnedAdvance(s: State, p: nat)
    requires Sound(s) && Owned(s) && Timely(s) && p < |s.procs|
    ensures Owned(Advanced(s, p))
  {
    var v := Advanced(s, p);
    assert Local(s, s.procs[p]);
    forall q | 0 <= q < |v.procs| && v.procs[q].Critical? ensures LockIs(v, Token(v.procs[q].token)) {
      if q != p { assert Apart(s.procs[p], s.procs[q]); }
    }
    forall q, r | 0 <= q < |v.procs| && 0 <= r < |v.procs| ensures !(v.procs[q].Unlinking? && v.procs[r].Critical?) {
      if q != p { assert Apart(s.procs[p], s.procs[q]); }
    }
  }

  lemma {:induction false} OwnedNext(s: State, step: Step)
    requires Sound(s) && Owned(s) && Timely(s)
    ensures Owned(Next(s, step))
  {
    if step.Advance? && step.p < |s.procs| {
      OwnedAdvance(s, step.p);
    } else if step.Fail? && step.p < |s.procs| {
      OwnedFail(s, step.p);
    }
  }

  lemma {:induction false} OwnedFail(s: State, p: nat)
    requires Sound(s) && Owned(s) && p < |s.procs|
    ensures Owned(Failed(s, p))
  {
    var v := Failed(s, p);
    assert Local(s, s.procs[p]);
    forall q, r | 0 <= q < |v.procs| && 0 <= r < |v.procs| ensures !(v.procs[q].Unlinking? && v.procs[r].Critical?) {
      if q != p { assert Apart(s.procs[p], s.procs[q]); }
    }
  }

  lemma {:induction false} OwnedRun(s: State, steps: seq<Step>)
    requires Sound(s) && Owned(s) && TimelyRun(s, steps)
    ensures Owned(Run(s, steps))
    decreases |steps|
  {
    if steps != [] {
      SoundNext(s, steps[0]);
      OwnedNext(s, steps[0]);
      OwnedRun(Next(s, steps[0]), steps[1..]);
    }
  }

  /** If no process ever stays in the critical section longer than the stale limit, at most one is
      in it, however many there are and whatever dies or fails. */
  lemma {:induction false} CriticalIsExclusive(s: State, steps: seq<Step>, p: nat, q: nat)
    requires Initial(s) && TimelyRun(s, steps) && p < |Run(s, steps).procs| && q < |Run(s, steps).procs|
    ensures Run(s, steps).procs[p].Critical? && Run(s, steps).procs[q].Critical? ==> p == q
  {
    SoundRun(s, steps);
    OwnedRun(s, steps);
    var v := Run(s, steps);
    if p != q { assert Apart(v.procs[p], v.procs[q]); }
  }

  // ---------------------------------------------------------------- beyond the limit

  function AdvancedBy(s: State, p: nat, n: nat): State
    requires p < |s.procs|
    decreases n
  {
    if n == 0 then s
    else
      var v := Advanced(s, p);
      if |v.procs| == |s.procs| then AdvancedBy(v, p, n - 1) else s
  }

  /** A process that meets a stale lock file takes it away. */
  lemma {:induction false} TakesAway(s: State, q: nat, t: nat)
    requires q < |s.procs| && s.procs[q] == Gating(Acquire(t)) && s.gate.None?
    requires s.lock.Some? && s.now - s.lock.value.mtime > STALE
    ensures AdvancedBy(s, q, 8) == s.(lock := None, unused := s.unused + 1)
  {
    var g := s.unused;
    var s1 := Advanced(s, q);
    var s2 := Advanced(s1, q);
    assert s2.procs[q] == Entering(t, g);
    var s3 := Advanced(s2, q);
    var s4 := Advanced(s3, q);
    var s5 := Advanced(s4, q);
    assert s5.procs[q] == Unlinking(t, g, s.lock.value.id);
    var s6 := Advanced(s5, q);
    var s7 := Advanced(s6, q);
    var s8 := Advanced(s7, q);
    assert s8.procs == s.procs;
  }

  /** A process that finds neither gate nor lock file gets in. */
  lemma {:induction false} GetsIn(s: State, q: nat, t: nat)
    requires q < |s.procs| && s.procs[q] == Gating(Acquire(t)) && s.gate.None? && s.lock.None?
    ensures AdvancedBy(s, q, 6).procs == s.procs[q := Critical(t)]
  {
    var g := s.unused;
    var s1 := Advanced(s, q);
    var s2 := Advanced(s1, q);
    assert s2.procs[q] == Entering(t, g);
    var s3 := Advanced(s2, q);
    var s4 := Advanced(s3, q);
    assert s4.procs[q] == LeavingGate(Enter(t), g) && s4.gate == Some(Token(g));
    var s5 := Advanced(s4, q);
    var s6 := Advanced(s5, q);
    assert s6.procs == s.procs[q := Critical(t)];
  }

  /** The limit is needed: whenever a process overstays it in the critical section, another one
      that wants in while the gate is free gets in beside it. */
  lemma {:induction false} OverstayingIsOvertaken(s: State, p: nat, q: nat, t: nat)
    requires p < |s.procs| && q < |s.procs| && p != q
    requires s.procs[p].Critical? && s.lock.Some? && s.now - s.lock.value.mtime > STALE
    requires s.procs[q] == Gating(Acquire(t)) && s.gate.None?
    ensures var v := AdvancedBy(AdvancedBy(s, q, 8), q, 6);
            v.procs[p].Critical? && v.procs[q].Critical?
  {
    TakesAway(s, q, t);
    GetsIn(AdvancedBy(s, q, 8), q, t);
  }

  // ---------------------------------------------------------------- what a release does

  /** The owner's release takes the lock file away, and lets the gate go. */
  lemma {:induction false} OwnerReleases(s: State, p: nat, t: nat)
    requires p < |s.procs| && s.procs[p] == Gating(Release(t)) && s.gate.None? && LockIs(s, Token(t))
    ensures AdvancedBy(s, p, 6) == s.(lock := None, unused := s.unused + 1, procs := s.procs[p := Idle])
  {
    var g := s.unused;
    var s1 := Advanced(s, p);
    var s2 := Advanced(s1, p);
    assert s2.procs[p] == Reading(t, g);
    var s3 := Advanced(s2, p);
    var s4 := Advanced(s3, p);
    assert s4.procs[p] == LeavingGate(Done, g) && s4.gate == Some(Token(g));
    var s5 := Advanced(s4, p);
    var s6 := Advanced(s5, p);
    assert s6.procs == s.procs[p := Idle];
  }

  /** A release that finds no lock file, or one that is not its own, leaves it as it is. */
  lemma {:induction false} OthersKeepTheirs(s: State, p: nat, t: nat)
    requires p < |s.procs| && s.procs[p] == Gating(Release(t)) && s.gate.None? && !LockIs(s, Token(t))
    ensures AdvancedBy(s, p, 5) == s.(unused := s.unused + 1, procs := s.procs[p := Idle])
  {
    var g := s.unused;
    var s1 := Advanced(s, p);
    var s2 := Advanced(s1, p);
    assert s2.procs[p] == Reading(t, g);
    var s3 := Advanced(s2, p);
    assert s3.procs[p] == LeavingGate(Done, g) && s3.gate == Some(Token(g));
    var s4 := Advanced(s3, p);
    var s5 := Advanced(s4, p);
    assert s5.procs == s.procs[p := Idle];
  }

  /** So a waiting process gets in after a release, however fresh the lock file was. */
  lemma {:induction false} ReleaseLetsIn(s: State, p: nat, q: nat, t: nat, u: nat)
    requires p < |s.procs| && q < |s.procs| && p != q && s.gate.None?
    requires s.procs[p] == Gating(Release(t)) && LockIs(s, Token(t)) && s.procs[q] == Gating(Acquire(u))
    ensures AdvancedBy(AdvancedBy(s, p, 6), q, 6).procs == s.procs[p := Idle][q := Critical(u)]
  {
    OwnerReleases(s, p, t);
    GetsIn(AdvancedBy(s, p, 6), q, u);
  }

  /** A release with token `t` under way or over: once past the lock file, it is not there. */
  predicate Releasing(s: State, p: nat, t: nat)
    requires p < |s.procs|
  {
    var pc := s.procs[p];
    || (pc.Gating? && pc.goal == Release(t))
    || (pc.GateWriting? && pc.goal == Release(t))
    || (pc.Reading? && pc.token == t)
    || (pc.Dropping? && pc.token == t)
    || ((pc.Idle? || (pc.LeavingGate? && pc.after.Done?) || (pc.UnlinkingGate? && pc.after.Done?))
        && !LockIs(s, Token(t)))
  }

  /** Only `p` uses the token. */
  predicate Only(s: State, p: nat, t: nat) {
    t < s.unused && forall q :: 0 <= q < |s.procs| && q != p ==> TokenOf(s.procs[q]) != Some(t)
  }

  /** The process neither dies, fails nor gives up in these steps, nor wants in again. */
  predicate Untroubled(steps: seq<Step>, p: nat) {
    Crash(p) !in steps && Fail(p) !in steps && GiveUp(p) !in steps && Begin(p) !in steps
  }

  lemma {:induction false} ReleasingOwn(s: State, p: nat, t: nat)
    requires p < |s.procs| && Local(s, s.procs[p]) && Releasing(s, p, t) && Only(s, p, t)
    ensures p < |Advanced(s, p).procs| && Releasing(Advanced(s, p), p, t) && Only(Advanced(s, p), p, t)
  {
  }

  /** What another process does to the lock file never makes it one of token `t`. */
  lemma {:induction false} OthersStep(s: State, step: Step, p: nat, t: nat)
    requires p < |s.procs| && Only(s, p, t) && !step.Tick? && step.p < |s.procs| && step.p != p
    ensures var v := Next(s, step);
            && p < |v.procs| && v.procs[p] == s.procs[p] && Only(v, p, t)
            && (LockIs(v, Token(t)) ==> LockIs(s, Token(t)))
  {
    assert TokenOf(s.procs[step.p]) != Some(t);
  }

  lemma {:induction false} ReleasingStep(s: State, step: Step, p: nat, t: nat)
    requires Sound(s) && p < |s.procs| && Releasing(s, p, t) && Only(s, p, t)
    requires step != Crash(p) && step != Fail(p) && step != GiveUp(p) && step != Begin(p)
    ensures p < |Next(s, step).procs| && Releasing(Next(s, step), p, t) && Only(Next(s, step), p, t)
  {
    assert Local(s, s.procs[p]);
    if !step.Tick? && step.p < |s.procs| {
      if step.p != p { OthersStep(s, step, p, t); } else if step.Advance? { ReleasingOwn(s, p, t); }
    }
  }

  /** However the others interleave: a release that is not broken off ends without a lock file of
      its token. */
  lemma {:induction false} ReleaseIsDone(s: State, steps: seq<Step>, p: nat, t: nat)
    requires Sound(s) && p < |s.procs| && Releasing(s, p, t) && Only(s, p, t) && Untroubled(steps, p)
    ensures p < |Run(s, steps).procs| && (Run(s, steps).procs[p].Idle? ==> !LockIs(Run(s, steps), Token(t)))
    decreases |steps|
  {
    if steps != [] {
      assert steps[0] in steps;
      ReleasingStep(s, steps[0], p, t);
      SoundNext(s, steps[0]);
      ReleaseIsDone(Next(s, steps[0]), steps[1..], p, t);
    }
  }

  /** In every run: whoever leaves the critical section and is not broken off takes its lock along. */
  lemma {:induction false} LeavingTakesTheLock(s: State, before: seq<Step>, p: nat, after: seq<Step>)
    requires Initial(s) && p < |Run(s, before).procs| && Run(s, before).procs[p].Critical? && Untroubled(after, p)
    ensures var t := Run(s, before).procs[p].token;
            var v := Run(Next(Run(s, before), Finish(p)), after);
            p < |v.procs| && (v.procs[p].Idle? ==> !LockIs(v, Token(t)))
  {
    SoundRun(s, before);
    var w := Run(s, before);
    var t := w.procs[p].token;
    assert Local(w, w.procs[p]);
    forall q | 0 <= q < |w.procs| && q != p ensures TokenOf(w.procs[q]) != Some(t) {
      assert Apart(w.procs[p], w.procs[q]);
    }
    SoundNext(w, Finish(p));
    ReleaseIsDone(Next(w, Finish(p)), after, p, t);
  }

  /** An operation on the lock file that fails ends the attempt, but not without letting the gate
      go; what it was about to do to the lock file has not happened. */
  lemma {:induction false} FailureLetsTheGateGo(s: State, p: nat)
    requires p < |s.procs| && Local(s, s.procs[p])
    requires var pc := s.procs[p];
             pc.Entering? || pc.LockWriting? || pc.Statting? || pc.Unlinking? || pc.Reading? || pc.Dropping?
    ensures AdvancedBy(Next(s, Fail(p)), p, 2) == s.(gate := None, procs := s.procs[p := Idle])
  {
    var s1 := Failed(s, p);
    var s2 := Advanced(s1, p);
    assert s2.procs[p] == UnlinkingGate(Done, s.procs[p].gate);
    var s3 := Advanced(s2, p);
    assert s3.procs == s.procs[p := Idle];
  }

  /** The gate file is there and whoever made it is gone. */
  predicate Orphaned(s: State) {
    s.gate.Some? && forall p :: 0 <= p < |s.procs| ==> !HoldsGate(s.procs[p])
  }

  /** Nothing reclaims the gate: once its holder has died, nobody ever enters or leaves again. */
  lemma {:induction false} OrphanedGateStays(s: State, steps: seq<Step>)
    requires Orphaned(s)
    ensures var v := Run(s, steps);
            && Orphaned(v) && v.gate == s.gate && v.lock == s.lock && |v.procs| == |s.procs|
            && forall p :: 0 <= p < |s.procs| && v.procs[p].Critical? ==> s.procs[p].Critical?
    decreases |steps|
  {
    if steps != [] { OrphanedGateStays(Next(s, steps[0]), steps[1..]); }
  }

  /** A process that dies while it holds the gate leaves it so. */
  lemma {:induction false} DyingOrphansTheGate(s: State, p: nat)
    requires Sound(s) && p < |s.procs| && HoldsGate(s.procs[p])
    ensures Orphaned(Next(s, Crash(p)))
  {
    assert Local(s, s.procs[p]);
    forall q | 0 <= q < |s.procs| && q != p ensures !HoldsGate(s.procs[q]) { assert Apart(s.procs[p], s.procs[q]); }
  }
}
