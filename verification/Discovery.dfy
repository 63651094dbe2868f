/** The discovery service: one state machine per agent entry, driven by triggers that are merged
    while a check is under way, and a stop that drains every entry.

    A stretch of code between two awaits is one step; checks, starts and stops of an entry end
    whenever and however they like. Watchers and timers only give triggers. */
module Discovery {
  import opened Wrappers

  datatype Life = Idle | Starting | Running | Stopping

  /** What the code of an entry awaits; `Exiting` is the time between the end of the check loop and
      the `finally` that clears `processing`. */
  datatype Phase = Quiet | Checking | CallingStart | CallingStop | Exiting

  /** What is fixed for an entry. */
  datatype Entry = Entry(unavailableThreshold: Option<nat>, runOnActive: bool)

  /** How a check came out, as far as the count of unavailable checks is concerned. */
  datatype Outcome = Unavailable | Other

  /** `calls` are the entry's own calls in flight; `log` is the outcome of every check since it was
      last started; `checks` counts the checks begun. */
  datatype Runtime = Runtime(
    life: Life,
    phase: Phase,
    consecutiveUnavailable: nat,
    refreshPending: bool,
    calls: nat,
    log: seq<Outcome>,
    checks: nat)

  const FRESH := Runtime(Idle, Quiet, 0, false, 0, [], 0)

  /** How far `stop` has come: not called, at entry `i` awaiting its processing, or awaiting its
      `stop` call. */
  datatype Shutdown = NotCalled | Draining(i: nat) | StoppingOne(i: nat)

  datatype Service = Service(entries: seq<Entry>, runtimes: seq<Runtime>, shutdown: Shutdown) {
    predicate Stopping() { !shutdown.NotCalled? }
  }

  datatype Step =
    | Trigger(i: nat)
    | CheckEnds(i: nat, enabled: bool, available: bool)
    | CheckFails(i: nat)
    | StartEnds(i: nat, ok: bool)
    | StopEnds(i: nat)
    | FinallyRuns(i: nat)
    | Stop
    | StopAdvances

  function Threshold(e: Entry): nat { e.unavailableThreshold.GetOr(1) }

  /** The head of the check loop. */
  function BeginCheck(rt: Runtime): Runtime {
    rt.(refreshPending := false, phase := Checking, checks := rt.checks + 1)
  }

  /** The end of one check: once more, or out of the loop. */
  function EndCheck(rt: Runtime, stopping: bool): Runtime {
    if rt.refreshPending && !stopping then BeginCheck(rt) else rt.(phase := Exiting)
  }

  function Triggered(rt: Runtime, stopping: bool): Runtime {
    if stopping then rt
    else if rt.phase.Quiet? then BeginCheck(rt)
    else rt.(refreshPending := true)
  }

  function CallStart(rt: Runtime): Runtime { rt.(phase := CallingStart, calls := rt.calls + 1) }

  function CallStop(rt: Runtime): Runtime { rt.(life := Stopping, phase := CallingStop, calls := rt.calls + 1) }

  /** `processEntryOnce` after the availability check. */
  function Checked(e: Entry, rt: Runtime, stopping: bool, enabled: bool, available: bool): Runtime {
    if stopping then EndCheck(rt, stopping)
    else if enabled && available then
      if !rt.life.Running? then CallStart(rt.(consecutiveUnavailable := 0, life := Starting, log := []))
      else if e.runOnActive then CallStart(rt.(consecutiveUnavailable := 0, log := rt.log + [Other]))
      else EndCheck(rt.(consecutiveUnavailable := 0, log := rt.log + [Other]), stopping)
    else if rt.life.Running? || rt.life.Starting? then
      if !enabled then CallStop(rt.(consecutiveUnavailable := 0, log := rt.log + [Other]))
      else if rt.consecutiveUnavailable + 1 >= Threshold(e)
      then CallStop(rt.(consecutiveUnavailable := 0, log := rt.log + [Unavailable]))
      else EndCheck(rt.(consecutiveUnavailable := rt.consecutiveUnavailable + 1, log := rt.log + [Unavailable]), stopping)
    else EndCheck(rt, stopping)
  }

  function StartEnded(rt: Runtime, stopping: bool, ok: bool): Runtime {
    var v := rt.(calls := rt.calls - (if rt.calls > 0 then 1 else 0));
    if !ok then EndCheck(v.(life := Idle), stopping)
    else if v.life.Starting? then
      if stopping then EndCheck(v, stopping) else EndCheck(v.(life := Running), stopping)
    else EndCheck(v, stopping)
  }

  function StopEnded(rt: Runtime, stopping: bool): Runtime {
    EndCheck(rt.(calls := rt.calls - (if rt.calls > 0 then 1 else 0), life := Idle), stopping)
  }

  function At(s: Service, i: nat, rt: Runtime): Service
    requires i < |s.runtimes|
  {
    s.(runtimes := s.runtimes[i := rt])
  }

  /** One step; a step that is not enabled changes nothing. */
  function Next(s: Service, step: Step): Service {
    match step
    case Stop => if s.Stopping() then s else s.(shutdown := Draining(0))
    case StopAdvances => StopAdvanced(s)
    case _ =>
      if step.i >= |s.runtimes| || step.i >= |s.entries| then s
      else At(s, step.i, EntryNext(s.entries[step.i], s.runtimes[step.i], s.Stopping(), step))
  }

  /** What a step does to the entry that it is about. */
  function EntryNext(e: Entry, rt: Runtime, stopping: bool, step: Step): Runtime {
    match step
    case Trigger(_) => Triggered(rt, stopping)
    case CheckEnds(_, enabled, available) =>
      if rt.phase.Checking? then Checked(e, rt, stopping, enabled, available) else rt
    case CheckFails(_) => if rt.phase.Checking? then EndCheck(rt.(life := Idle), stopping) else rt
    case StartEnds(_, ok) => if rt.phase.CallingStart? then StartEnded(rt, stopping, ok) else rt
    case StopEnds(_) => if rt.phase.CallingStop? then StopEnded(rt, stopping) else rt
    case FinallyRuns(_) => if rt.phase.Exiting? then rt.(phase := Quiet) else rt
    case _ => rt
  }

  /** The loop of `stop`: await the entry's processing, stop it if it runs, go on. */
  function StopAdvanced(s: Service): Service {
    match s.shutdown
    case NotCalled => s
    case Draining(i) =>
      if i >= |s.runtimes| || !s.runtimes[i].phase.Quiet? then s
      else if s.runtimes[i].life.Running? || s.runtimes[i].life.Starting?
      then At(s, i, s.runtimes[i].(life := Stopping, calls := s.runtimes[i].calls + 1)).(shutdown := StoppingOne(i))
      else s.(shutdown := Draining(i + 1))
    case StoppingOne(i) =>
      if i >= |s.runtimes| then s
      else At(s, i, s.runtimes[i].(life := Idle, calls := s.runtimes[i].calls - (if s.runtimes[i].calls > 0 then 1 else 0)))
           .(shutdown := Draining(i + 1))
  }

  function Run(s: Service, steps: seq<Step>): Service
    decreases |steps|
  {
    if steps == [] then s else Run(Next(s, steps[0]), steps[1..])
  }

  function Initial(entries: seq<Entry>): Service { Service(entries, seq(|entries|, i => FRESH), NotCalled) }

  // ---------------------------------------------------------------- the object

  /** The record of one entry, changed by the check loop. */
  class EntryRuntime {
    const entry: Entry
    var life: Life
    var processing: Phase
    var consecutiveUnavailable: nat
    var refreshPending: bool
    ghost var calls: nat
    ghost var log: seq<Outcome>
    ghost var checks: nat

    ghost function Value(): Runtime
      reads this
    {
      Runtime(life, processing, consecutiveUnavailable, refreshPending, calls, log, checks)
    }

    constructor (entry: Entry)
      ensures this.entry == entry && Value() == FRESH
    {
      this.entry := entry;
      life, processing, consecutiveUnavailable, refreshPending := Idle, Quiet, 0, false;
      calls, log, checks := 0, [], 0;
    }

    method ProcessEntry(stopping: bool)
      modifies this
      ensures Value() == Triggered(old(Value()), stopping)
    {
      if stopping { return; }
      refreshPending := true;
      if processing != Quiet { return; }
      Loop();
    }

    method Loop()
      modifies this
      ensures Value() == BeginCheck(old(Value()))
    {
      refreshPending := false;
      processing := Checking;
      checks := checks + 1;
    }

    method EndOfCheck(stopping: bool)
      modifies this
      ensures Value() == EndCheck(old(Value()), stopping)
    {
      if refreshPending && !stopping { Loop(); } else { processing := Exiting; }
    }

    /** `processEntryOnce` from the answer of the availability check to the next await. */
    method AfterCheck(stopping: bool, enabled: bool, available: bool)
      requires processing == Checking
      modifies this
      ensures Value() == Checked(entry, old(Value()), stopping, enabled, available)
    {
      if stopping { EndOfCheck(stopping); return; }
      var shouldRun := enabled && available;
      if shouldRun && life != Running {
        consecutiveUnavailable, life := 0, Starting;
        log := [];
        processing := CallingStart;
        calls := calls + 1;
        return;
      }
      if !shouldRun && (life == Running || life == Starting) {
        log := log + [if enabled then Unavailable else Other];
        if !enabled {
          consecutiveUnavailable := 0;
          StopEntry();
          return;
        }
        consecutiveUnavailable := consecutiveUnavailable + 1;
        if consecutiveUnavailable >= entry.unavailableThreshold.GetOr(1) {
          consecutiveUnavailable := 0;
          StopEntry();
          return;
        }
      } else if shouldRun && entry.runOnActive {
        consecutiveUnavailable := 0;
        log := log + [Other];
        processing := CallingStart;
        calls := calls + 1;
        return;
      } else if shouldRun {
        consecutiveUnavailable := 0;
        log := log + [Other];
      }
      EndOfCheck(stopping);
    }

    method StopEntry()
      modifies this
      ensures Value() == CallStop(old(Value()))
    {
      life, processing := Stopping, CallingStop;
      calls := calls + 1;
    }
  }

  // ---------------------------------------------------------------- what every step keeps

  /** The unavailable checks at the end of the log. */
  function Streak(log: seq<Outcome>): nat {
    if log == [] || log[|log| - 1].Other? then 0 else 1 + Streak(log[..|log| - 1])
  }

  /** `own` says that `stop` is calling the entry's `stop` itself. */
  predicate Sound(rt: Runtime, own: bool) {
    && rt.calls == (if own || rt.phase.CallingStart? || rt.phase.CallingStop? then 1 else 0)
    && (own ==> rt.phase.Quiet? && rt.life.Stopping?)
    && (rt.phase.CallingStart? ==> rt.life.Starting? || rt.life.Running?)
    && (rt.phase.CallingStop? ==> rt.life.Stopping?)
    && (rt.life.Stopping? ==> rt.phase.CallingStop? || own)
    && (rt.life.Starting? || rt.life.Running? ==> rt.consecutiveUnavailable == Streak(rt.log))
  }

  predicate OwnStop(s: Service, i: nat) { s.shutdown == StoppingOne(i) }

  /** Entries that `stop` has passed are idle. */
  predicate Passed(s: Service, i: nat)
    requires i < |s.runtimes|
  {
    (s.shutdown.Draining? || s.shutdown.StoppingOne?) && i < s.shutdown.i ==>
      s.runtimes[i].life.Idle? && s.runtimes[i].phase.Quiet?
  }

  /** Once `stop` is called, a start can only be one that was already under way. */
  predicate Valid(s: Service) {
    && |s.entries| == |s.runtimes|
    && (s.shutdown.StoppingOne? ==> s.shutdown.i < |s.runtimes|)
    && (forall i: nat :: i < |s.runtimes| ==> Sound(s.runtimes[i], OwnStop(s, i)))
    && (forall i: nat :: i < |s.runtimes| ==> Passed(s, i))
    && (!s.Stopping() ==> forall i: nat :: i < |s.runtimes| && s.runtimes[i].life.Starting? ==>
          s.runtimes[i].phase.CallingStart?)
  }

  lemma {:induction false} StreakSnoc(log: seq<Outcome>, o: Outcome)
    ensures Streak(log + [o]) == if o.Other? then 0 else 1 + Streak(log)
  {
    assert (log + [o])[..|log|] == log;
  }

  lemma {:induction false} SoundEntry(e: Entry, rt: Runtime, stopping: bool, step: Step)
    requires Sound(rt, false)
    ensures Sound(EntryNext(e, rt, stopping, step), false)
  {
    if step.CheckEnds? && rt.phase.Checking? { SoundChecked(e, rt, stopping, step.enabled, step.available); }
  }

  lemma {:induction false} SoundChecked(e: Entry, rt: Runtime, stopping: bool, enabled: bool, available: bool)
    requires Sound(rt, false) && rt.phase.Checking?
    ensures Sound(Checked(e, rt, stopping, enabled, available), false)
  {
    StreakSnoc(rt.log, Other);
    StreakSnoc(rt.log, Unavailable);
  }

  lemma {:induction false} ValidNext(s: Service, step: Step)
    requires Valid(s)
    ensures Valid(Next(s, step))
  {
    if step.Stop? || step.StopAdvances? {
      ValidStop(s, step);
    } else if step.i < |s.runtimes| {
      ValidEntry(s, step);
    }
  }

  lemma {:induction false} ValidStop(s: Service, step: Step)
    requires Valid(s) && (step.Stop? || step.StopAdvances?)
    ensures Valid(Next(s, step))
  {
    var v := Next(s, step);
    forall i: nat | i < |v.runtimes| ensures Sound(v.runtimes[i], OwnStop(v, i)) && Passed(v, i) {
      assert Sound(s.runtimes[i], OwnStop(s, i)) && Passed(s, i);
    }
  }

  /** While `stop` calls the entry's `stop`, no step of the entry's own is enabled. */
  lemma {:induction false} OwnStopIsAlone(e: Entry, rt: Runtime, step: Step)
    requires Sound(rt, true)
    ensures EntryNext(e, rt, true, step) == rt
  {
  }

  /** An idle, quiet entry of a service that is stopping stays so. */
  lemma {:induction false} PassedStays(e: Entry, rt: Runtime, step: Step)
    requires rt.life.Idle? && rt.phase.Quiet?
    ensures EntryNext(e, rt, true, step) == rt
  {
  }

  lemma {:induction false} StartingCallsStart(e: Entry, rt: Runtime, step: Step)
    requires Sound(rt, false) && (rt.life.Starting? ==> rt.phase.CallingStart?)
    ensures var v := EntryNext(e, rt, false, step); v.life.Starting? ==> v.phase.CallingStart?
  {
  }

  lemma {:induction false} ValidEntry(s: Service, step: Step)
    requires Valid(s) && !step.Stop? && !step.StopAdvances? && step.i < |s.runtimes|
    ensures Valid(Next(s, step))
  {
    var i, v := step.i, Next(s, step);
    var e, rt := s.entries[i], s.runtimes[i];
    assert Sound(rt, OwnStop(s, i)) && Passed(s, i);
    if OwnStop(s, i) { OwnStopIsAlone(e, rt, step); } else { SoundEntry(e, rt, s.Stopping(), step); }
    if s.Stopping() {
      if rt.life.Idle? && rt.phase.Quiet? { PassedStays(e, rt, step); }
    } else {
      StartingCallsStart(e, rt, step);
    }
    forall k: nat | k < |v.runtimes| ensures Sound(v.runtimes[k], OwnStop(v, k)) && Passed(v, k) {
      if k != i { assert Sound(s.runtimes[k], OwnStop(s, k)) && Passed(s, k); }
    }
  }

  lemma {:induction false} ValidRun(s: Service, steps: seq<Step>)
    requires Valid(s)
    ensures Valid(Run(s, steps)) && |Run(s, steps).runtimes| == |s.runtimes|
    decreases |steps|
  {
    if steps != [] {
      ValidNext(s, steps[0]);
      ValidRun(Next(s, steps[0]), steps[1..]);
    }
  }

  /** In every run the `start` and `stop` calls of an entry never overlap, the service's own included. */
  lemma {:induction false} CallsNeverOverlap(entries: seq<Entry>, steps: seq<Step>, i: nat)
    requires i < |entries|
    ensures i < |Run(Initial(entries), steps).runtimes| && Run(Initial(entries), steps).runtimes[i].calls <= 1
  {
    ValidRun(Initial(entries), steps);
    var v := Run(Initial(entries), steps);
    assert Sound(v.runtimes[i], OwnStop(v, i));
  }

  // ---------------------------------------------------------------- the threshold

  /** A check that finds a running entry enabled and unavailable stops it if and only if the last
      checks, as many as the threshold, all found it unavailable. */
  lemma {:induction false} UnavailableStopsIff(entries: seq<Entry>, steps: seq<Step>, i: nat)
    requires i < |entries| && i < |Run(Initial(entries), steps).runtimes|
    ensures var s := Run(Initial(entries), steps);
            var rt := s.runtimes[i];
            !s.Stopping() && rt.phase.Checking? && rt.life.Running? ==>
              EntryNext(entries[i], rt, false, CheckEnds(i, true, false)).phase.CallingStop?
                == (Streak(rt.log + [Unavailable]) >= Threshold(entries[i]))
  {
    ValidRun(Initial(entries), steps);
    var s := Run(Initial(entries), steps);
    assert Sound(s.runtimes[i], OwnStop(s, i));
    StreakSnoc(s.runtimes[i].log, Unavailable);
  }

  // ---------------------------------------------------------------- what the answers lead to

  /** Unless the service stops, a check that finds the entry wanted and available has it started,
      or leaves it running, with a `start` on every activity if it asks for that; one that finds a
      running entry not wanted has it stopped at once; one that finds it unavailable once too often
      has it stopped, too; an idle entry that is not wanted or not available is left alone. */
  lemma {:induction false} WhatACheckLeadsTo(e: Entry, rt: Runtime, i: nat, enabled: bool, available: bool)
    requires Sound(rt, false) && rt.phase.Checking? && !rt.life.Starting?
    ensures var v := EntryNext(e, rt, false, CheckEnds(i, enabled, available));
            && (enabled && available ==> v.consecutiveUnavailable == 0)
            && (enabled && available && !rt.life.Running? ==> v.life.Starting? && v.phase.CallingStart? && v.log == [])
            && (enabled && available && rt.life.Running? ==>
                  v.life.Running? && (v.phase.CallingStart? <==> e.runOnActive))
            && (!enabled && rt.life.Running? ==>
                  v.life.Stopping? && v.phase.CallingStop? && v.consecutiveUnavailable == 0)
            && (enabled && !available && rt.life.Running? ==>
                  if rt.consecutiveUnavailable + 1
                     >= (if e.unavailableThreshold.Some? then e.unavailableThreshold.value else 1)
                  then v.life.Stopping? && v.phase.CallingStop? && v.consecutiveUnavailable == 0
                  else v.life.Running? && !v.phase.CallingStop?
                       && v.consecutiveUnavailable == rt.consecutiveUnavailable + 1)
            && (!(enabled && available) && rt.life.Idle? ==> v.life.Idle? && v.calls == 0)
            && (rt.life.Running? ==> v.log == rt.log + [if enabled && !available then Unavailable else Other])
  {
  }

  /** A start that succeeds leaves the entry running, one that fails leaves it idle; if the service
      began to stop meanwhile the entry is still to be stopped. A stop leaves it idle. */
  lemma {:induction false} WhatACallLeadsTo(e: Entry, rt: Runtime, stopping: bool, i: nat, ok: bool)
    requires Sound(rt, false)
    ensures rt.phase.CallingStart? ==>
              var v := EntryNext(e, rt, stopping, StartEnds(i, ok));
              && v.calls == 0
              && (!ok ==> v.life.Idle?)
              && (ok && !stopping ==> v.life.Running?)
              && (ok && stopping ==> v.life == rt.life)
    ensures rt.phase.CallingStop? ==>
              var v := EntryNext(e, rt, stopping, StopEnds(i));
              v.calls == 0 && v.life.Idle?
  {
  }

  /** A check during which no trigger comes is the last: the loop ends with it. */
  lemma {:induction false} NoTriggerNoCheck(e: Entry, rt: Runtime, stopping: bool, steps: seq<Step>)
    requires !rt.refreshPending && !rt.phase.Quiet? && forall k :: 0 <= k < |steps| ==> !steps[k].Trigger?
    ensures Settles(e, rt, stopping, steps).checks == rt.checks && !Settles(e, rt, stopping, steps).refreshPending
    decreases |steps|
  {
    if steps != [] {
      var v := EntryNext(e, rt, stopping, steps[0]);
      if v.phase.Quiet? {
        QuietStaysQuiet(e, v, stopping, steps[1..]);
      } else {
        NoTriggerNoCheck(e, v, stopping, steps[1..]);
      }
    }
  }

  lemma {:induction false} QuietStaysQuiet(e: Entry, rt: Runtime, stopping: bool, steps: seq<Step>)
    requires rt.phase.Quiet? && forall k :: 0 <= k < |steps| ==> !steps[k].Trigger?
    ensures Settles(e, rt, stopping, steps) == rt
    decreases |steps|
  {
    if steps != [] { QuietStaysQuiet(e, rt, stopping, steps[1..]); }
  }

  /** A trigger that finds the entry at rest begins exactly one check, if no other comes. */
  lemma {:induction false} OneTriggerOneCheck(e: Entry, rt: Runtime, steps: seq<Step>)
    requires rt.phase.Quiet? && forall k :: 0 <= k < |steps| ==> !steps[k].Trigger?
    ensures Settles(e, Triggered(rt, false), false, steps).checks == rt.checks + 1
  {
    NoTriggerNoCheck(e, Triggered(rt, false), false, steps);
  }

  // ---------------------------------------------------------------- triggers

  /** Steps until the check loop is over. */
  function Settles(e: Entry, rt: Runtime, stopping: bool, steps: seq<Step>): Runtime
    decreases |steps|
  {
    if steps == [] then rt else Settles(e, EntryNext(e, rt, stopping, steps[0]), stopping, steps[1..])
  }

  lemma {:induction false} PendingIsServed(e: Entry, rt: Runtime, steps: seq<Step>)
    requires rt.refreshPending && !rt.phase.Quiet? && !rt.phase.Exiting?
    ensures var v := Settles(e, rt, false, steps);
            && rt.checks <= v.checks
            && (v.phase.Exiting? || v.phase.Quiet? ==> v.checks > rt.checks)
    decreases |steps|
  {
    if steps != [] {
      var v := EntryNext(e, rt, false, steps[0]);
      if v.checks > rt.checks { ChecksGrow(e, v, steps[1..]); } else { PendingIsServed(e, v, steps[1..]); }
    }
  }

  lemma {:induction false} ChecksGrow(e: Entry, rt: Runtime, steps: seq<Step>)
    ensures rt.checks <= Settles(e, rt, false, steps).checks
    decreases |steps|
  {
    if steps != [] { ChecksGrow(e, EntryNext(e, rt, false, steps[0]), steps[1..]); }
  }

  /** Unless the service stops, a trigger is followed by a check that begins after it, before the
      entry comes to rest, if and only if it did not come between the end of the check loop and its
      `finally`: that one alone may be lost. */
  lemma {:induction false} TriggerIsServedIff(e: Entry, rt: Runtime, i: nat)
    ensures !rt.phase.Exiting? ==>
              forall steps :: RestsAfter(e, Triggered(rt, false), steps) ==>
                Settles(e, Triggered(rt, false), false, steps).checks > rt.checks
    ensures rt.phase.Exiting? ==>
              && RestsAfter(e, Triggered(rt, false), [FinallyRuns(i)])
              && Settles(e, Triggered(rt, false), false, [FinallyRuns(i)]).checks == rt.checks
  {
    var v := Triggered(rt, false);
    if rt.phase.Exiting? {
      assert [FinallyRuns(i)][1..] == [];
    } else {
      forall steps | RestsAfter(e, v, steps) ensures Settles(e, v, false, steps).checks > rt.checks {
        if rt.phase.Quiet? { ChecksGrow(e, v, steps); } else { PendingIsServed(e, v, steps); }
      }
    }
  }

  predicate RestsAfter(e: Entry, rt: Runtime, steps: seq<Step>) {
    Settles(e, rt, false, steps).phase.Quiet?
  }

  // ---------------------------------------------------------------- after stop

  predicate StopReturned(s: Service) { s.shutdown == Draining(|s.runtimes|) }

  /** When `stop` has gone through the entries, all are idle and nothing ever starts again. */
  lemma {:induction false} StoppedForGood(entries: seq<Entry>, before: seq<Step>, after: seq<Step>)
    requires StopReturned(Run(Initial(entries), before))
    ensures var s := Run(Initial(entries), before);
            && Run(s, after) == s
            && forall i :: 0 <= i < |s.runtimes| ==>
                 s.runtimes[i].life.Idle? && s.runtimes[i].phase.Quiet? && s.runtimes[i].calls == 0
  {
    ValidRun(Initial(entries), before);
    var s := Run(Initial(entries), before);
    forall i: nat | i < |s.runtimes|
      ensures s.runtimes[i].life.Idle? && s.runtimes[i].phase.Quiet? && s.runtimes[i].calls == 0
    {
      assert Passed(s, i) && Sound(s.runtimes[i], OwnStop(s, i));
    }
    NothingMoves(s, after);
  }

  lemma {:induction false} NothingMoves(s: Service, steps: seq<Step>)
    requires StopReturned(s) && forall i :: 0 <= i < |s.runtimes| ==> s.runtimes[i].life.Idle? && s.runtimes[i].phase.Quiet?
    ensures Run(s, steps) == s
    decreases |steps|
  {
    if steps != [] {
      var step := steps[0];
      if !step.Stop? && !step.StopAdvances? && step.i < |s.runtimes| && step.i < |s.entries| {
        PassedStays(s.entries[step.i], s.runtimes[step.i], step);
        assert s.runtimes[step.i := s.runtimes[step.i]] == s.runtimes;
      }
      assert Next(s, step) == s;
      NothingMoves(s, steps[1..]);
    }
  }

  /** Once `stop` is called no check begins and no `start` is called. */
  lemma {:induction false} NothingStartsWhileStopping(e: Entry, rt: Runtime, step: Step)
    ensures var v := EntryNext(e, rt, true, step);
            && v.checks == rt.checks
            && (v.phase.CallingStart? ==> rt.phase.CallingStart?)
  {
  }

  function Drained(s: Service, n: nat): Service
    decreases n
  {
    if n == 0 then s else Drained(StopAdvanced(s), n - 1)
  }

  /** `stop` comes to its end: once the check loops are over, it goes through the entries one by
      one, calling the `stop` of those that run. */
  lemma {:induction false} StopComesToItsEnd(s: Service, i: nat)
    requires s.shutdown == Draining(i) && i <= |s.runtimes|
    requires forall k :: 0 <= k < |s.runtimes| ==> s.runtimes[k].phase.Quiet?
    ensures StopReturned(Drained(s, 2 * (|s.runtimes| - i)))
    decreases |s.runtimes| - i
  {
    if i < |s.runtimes| {
      var v := StopAdvanced(s);
      var w := StopAdvanced(v);
      assert Drained(s, 2 * (|s.runtimes| - i)) == Drained(w, 2 * (|s.runtimes| - i) - 2);
      if v.shutdown.StoppingOne? {
        assert v.runtimes[i].life.Stopping?;
        StopComesToItsEnd(w, i + 1);
      } else {
        StopComesToItsEnd(v, i + 1);
        DrainedFurther(v, 2 * (|s.runtimes| - i) - 2);
      }
    }
  }

  /** A `stop` that has come to its end stays there. */
  lemma {:induction false} DrainedFurther(s: Service, n: nat)
    requires StopReturned(Drained(s, n))
    ensures StopReturned(Drained(s, n + 1))
    decreases n
  {
    if n > 0 { DrainedFurther(StopAdvanced(s), n - 1); }
  }
}
