/** Crash safety of the Codex turn journal. An event runs a prefix of an operation's plan; the rest
    may be missing because an action failed, or because the process died, in which case memory is
    lost and an append may leave any part of its text behind. */
module JournalSafety {
  import opened Wrappers
  import opened Seqs
  import opened Lines
  import opened JournalText
  import opened TurnJournal

  /** The journal with its history: `now` counts actions, `born` says when the pending file was
      created, `lastAck` when the turn was last acknowledged, and `log` holds the entries whose
      lines the pending file has whole. */
  datatype World = World(j: Journal, now: nat, born: map<Key, nat>, lastAck: map<Key, nat>, log: map<Key, seq<Entry>>)

  function Log(w: World, key: Key): seq<Entry> { if key in w.log then w.log[key] else [] }

  function Written(w: World, key: Key, text: string, entries: seq<Entry>): World {
    w.(j := w.j.(pending := w.j.pending[key := Content(w.j.pending, key) + text]),
       born := if key in w.j.pending then w.born else w.born[key := w.now],
       log := w.log[key := Log(w, key) + entries],
       now := w.now + 1)
  }

  function Step(codec: Codec, w: World, a: Action): World {
    match a
    case AppendText(g) => Written(w, g.key, Text(codec, g.entries), g.entries)
    case PutDone(key, _) => w.(j := Act(codec, w.j, a), lastAck := w.lastAck[key := w.now], now := w.now + 1)
    case DropPending(key) =>
      w.(j := Act(codec, w.j, a), born := w.born - {key}, log := w.log - {key}, now := w.now + 1)
    case _ => w.(j := Act(codec, w.j, a), now := w.now + 1)
  }

  function Steps(codec: Codec, w: World, plan: seq<Action>): World
    decreases |plan|
  {
    if plan == [] then w else Steps(codec, Step(codec, w, plan[0]), plan[1..])
  }

  function Crashed(w: World): World { w.(j := w.j.(initialized := {}, acks := [], loaded := false)) }

  /** An append cut off after `n` characters. */
  function Torn(codec: Codec, w: World, g: Group, n: nat): World
    requires n <= |Text(codec, g.entries)|
  {
    var part := Text(codec, g.entries)[..n];
    var whole := |WholeLines(part)|;
    Written(w, g.key, part, if whole <= |g.entries| then g.entries[..whole] else g.entries)
  }

  /** `ran` actions of `op` happen; then the operation goes on no further, or the process dies. */
  datatype Event = Event(op: Op, ran: nat, crash: bool, torn: nat)

  predicate MayRun(j: Journal, op: Op) {
    match op
    case Load(order) => Lists(order, j.done)
    case Append(order, _) => Lists(order, j.done)
    case Acknowledge(order, _, _) => Lists(order, j.done)
    case Remove(_) => true
  }

  function Perform(codec: Codec, limit: nat, w: World, e: Event): World {
    if !MayRun(w.j, e.op) then w
    else
      var plan := PlanOf(codec, limit, w.j, e.op);
      var ran := if e.ran < |plan| then e.ran else |plan|;
      var v := Steps(codec, w, plan[..ran]);
      if !e.crash then v
      else if ran < |plan| && plan[ran].AppendText? && e.torn <= |Text(codec, plan[ran].group.entries)|
      then Crashed(Torn(codec, v, plan[ran].group, e.torn))
      else Crashed(v)
  }

  function Run(codec: Codec, limit: nat, w: World, events: seq<Event>): World
    decreases |events|
  {
    if events == [] then w else Run(codec, limit, Perform(codec, limit, w, events[0]), events[1..])
  }

  const EMPTY := World(Journal(map[], map[], {}, [], false), 0, map[], map[], map[])

  // ---------------------------------------------------------------- invariants

  predicate Distinct(acks: seq<Ack>) { forall i, k :: 0 <= i < k < |acks| ==> acks[i].key != acks[k].key }

  /** Memory knows exactly the done files. */
  predicate Loaded(j: Journal) {
    j.loaded ==> Distinct(j.acks) && AckKeys(j.acks) == j.done.Keys
  }

  /** A pending file of an acknowledged turn has its done file, or was created afterwards. */
  predicate Fresh(w: World, key: Key) {
    && (key in w.lastAck ==> w.lastAck[key] < w.now)
    && (key in w.j.pending ==> key in w.born && w.born[key] < w.now)
    && (key in w.lastAck && key in w.j.pending ==> key in w.j.done || w.lastAck[key] < w.born[key])
  }

  predicate AllBelong(codec: Codec, key: Key, es: seq<Entry>) {
    forall i :: 0 <= i < |es| ==> Belongs(codec, key, es[i])
  }

  /** The whole lines of a pending file are its log. */
  predicate Faithful(codec: Codec, w: World, key: Key) {
    && AllBelong(codec, key, Log(w, key))
    && WholeLines(Content(w.j.pending, key)) == Map(codec.encode, Log(w, key))
    && (key in w.j.initialized ==> Tail(Content(w.j.pending, key)) == "")
  }

  ghost predicate Sound(codec: Codec, w: World) {
    && Loaded(w.j)
    && (forall key :: Fresh(w, key))
    && (forall key :: Faithful(codec, w, key))
  }

  /** What an action relies on. */
  predicate Enabled(codec: Codec, j: Journal, a: Action) {
    match a
    case LoadAcks(order) => Lists(order, j.done)
    case Truncate(_) => true
    case AppendText(g) => g.key in j.initialized && g.entries != [] && AllBelong(codec, g.key, g.entries)
    case PutDone(key, _) => j.loaded && key !in AckKeys(j.acks)
    case DropPending(_) => true
    case DropDone(key) => j.loaded && key !in j.pending
  }

  predicate PlanOk(codec: Codec, j: Journal, plan: seq<Action>)
    decreases |plan|
  {
    plan == [] || (Enabled(codec, j, plan[0]) && PlanOk(codec, Act(codec, j, plan[0]), plan[1..]))
  }

  lemma {:induction false} StepActs(codec: Codec, w: World, a: Action)
    ensures Step(codec, w, a).j == Act(codec, w.j, a)
  {
  }

  lemma {:induction false} StepsAct(codec: Codec, w: World, plan: seq<Action>)
    ensures Steps(codec, w, plan).j == Acts(codec, w.j, plan)
    decreases |plan|
  {
    if plan != [] {
      StepActs(codec, w, plan[0]);
      StepsAct(codec, Step(codec, w, plan[0]), plan[1..]);
    }
  }

  // ---------------------------------------------------------------- acknowledgements in memory

  lemma {:induction false} WithoutKeys(acks: seq<Ack>, key: Key)
    ensures AckKeys(Without(acks, key)) == AckKeys(acks) - {key}
  {
    if acks != [] {
      WithoutKeys(acks[1..], key);
      assert [acks[0]] + acks[1..] == acks;
      ConsKeys(acks[0], acks[1..]);
      WithoutOne(acks, key);
    }
  }

  lemma {:induction false} WithoutOne(acks: seq<Ack>, key: Key)
    requires acks != []
    ensures acks[0].key == key ==> Without(acks, key) == Without(acks[1..], key)
    ensures acks[0].key != key ==> AckKeys(Without(acks, key)) == {acks[0].key} + AckKeys(Without(acks[1..], key))
    ensures acks[0].key != key && acks[0].key !in AckKeys(Without(acks[1..], key)) ==>
              Distinct(Without(acks[1..], key)) ==> Distinct(Without(acks, key))
  {
    ConsKeys(acks[0], Without(acks[1..], key));
    assert [] + Without(acks[1..], key) == Without(acks[1..], key);
  }

  lemma {:induction false} WithoutDistinct(acks: seq<Ack>, key: Key)
    requires Distinct(acks)
    ensures Distinct(Without(acks, key))
  {
    if acks != [] {
      assert [acks[0]] + acks[1..] == acks;
      ConsKeys(acks[0], acks[1..]);
      WithoutDistinct(acks[1..], key);
      WithoutKeys(acks[1..], key);
      WithoutOne(acks, key);
    }
  }

  lemma {:induction false} ConsKeys(a: Ack, acks: seq<Ack>)
    ensures AckKeys([a] + acks) == {a.key} + AckKeys(acks)
    ensures Distinct([a] + acks) <==> Distinct(acks) && a.key !in AckKeys(acks)
  {
    var more := [a] + acks;
    assert forall i :: 0 <= i < |acks| ==> more[i + 1] == acks[i];
    forall k | k in AckKeys(acks) ensures k in AckKeys(more) {
      var i :| 0 <= i < |acks| && acks[i].key == k;
      assert more[i + 1].key == k;
    }
    assert more[0].key == a.key;
    if Distinct(more) {
      forall i, k | 0 <= i < k < |acks|
        ensures acks[i].key != acks[k].key
      {
        assert more[i + 1].key != more[k + 1].key;
      }
    }
  }

  lemma {:induction false} SnocKeys(acks: seq<Ack>, a: Ack)
    ensures AckKeys(acks + [a]) == AckKeys(acks) + {a.key}
    ensures Distinct(acks) && a.key !in AckKeys(acks) ==> Distinct(acks + [a])
  {
    var more := acks + [a];
    forall k | k in AckKeys(acks) ensures k in AckKeys(more) {
      var i :| 0 <= i < |acks| && acks[i].key == k;
      assert more[i].key == k;
    }
    assert more[|acks|].key == a.key;
  }

  lemma {:induction false} ListedKeys(done: map<Key, nat>, order: seq<Key>)
    requires Lists(order, done)
    ensures Distinct(Listed(done, order, |order|)) && AckKeys(Listed(done, order, |order|)) == done.Keys
  {
    var acks := Listed(done, order, |order|);
    forall k | k in done ensures k in AckKeys(acks) {
      var i :| 0 <= i < |order| && order[i] == k;
      assert acks[i].key == k;
    }
  }

  lemma {:induction false} LoadedKept(codec: Codec, j: Journal, a: Action)
    requires Loaded(j) && Enabled(codec, j, a)
    ensures Loaded(Act(codec, j, a))
  {
    match a
    case LoadAcks(order) => ListedKeys(j.done, order);
    case PutDone(key, stamp) => SnocKeys(j.acks, Ack(key, stamp.now));
    case DropDone(key) =>
      if j.loaded { WithoutKeys(j.acks, key); WithoutDistinct(j.acks, key); }
    case _ =>
  }

  // ---------------------------------------------------------------- contents

  lemma {:induction false} FaithfulWrite(codec: Codec, w: World, key: Key, text: string, entries: seq<Entry>)
    requires Faithful(codec, w, key) && key in w.j.initialized
    requires AllBelong(codec, key, entries) && WholeLines(text) == Map(codec.encode, entries)
    ensures AllBelong(codec, key, Log(w, key) + entries)
    ensures WholeLines(Content(w.j.pending, key) + text) == Map(codec.encode, Log(w, key) + entries)
    ensures Tail(Content(w.j.pending, key) + text) == Tail(text)
  {
    AppendToWhole(Content(w.j.pending, key), text);
    MapConcat(codec.encode, Log(w, key), entries);
  }

  /** Other turns are untouched by what concerns one key. */
  lemma {:induction false} FaithfulElsewhere(codec: Codec, w: World, v: World, key: Key)
    requires Faithful(codec, w, key) && Log(v, key) == Log(w, key)
    requires Content(v.j.pending, key) == Content(w.j.pending, key)
    requires key in v.j.initialized ==> key in w.j.initialized
    ensures Faithful(codec, v, key)
  {
  }

  lemma {:induction false} FaithfulAppend(codec: Codec, w: World, g: Group, key: Key)
    requires codec.Valid() && Enabled(codec, w.j, AppendText(g)) && Faithful(codec, w, g.key) && Faithful(codec, w, key)
    ensures Faithful(codec, Step(codec, w, AppendText(g)), key)
  {
    if key == g.key {
      TextLines(codec, g.entries);
      FaithfulWrite(codec, w, key, Text(codec, g.entries), g.entries);
    } else {
      FaithfulElsewhere(codec, w, Step(codec, w, AppendText(g)), key);
    }
  }

  lemma {:induction false} FaithfulTruncate(codec: Codec, w: World, at: Key, key: Key)
    requires Faithful(codec, w, key)
    ensures Faithful(codec, Step(codec, w, Truncate(at)), key)
  {
    var text := Content(w.j.pending, at);
    if key == at { TruncatedLines(text); } else { FaithfulElsewhere(codec, w, Step(codec, w, Truncate(at)), key); }
  }

  lemma {:induction false} FaithfulDrop(codec: Codec, w: World, at: Key, key: Key)
    requires Faithful(codec, w, key)
    ensures Faithful(codec, Step(codec, w, DropPending(at)), key)
  {
    if key != at { FaithfulElsewhere(codec, w, Step(codec, w, DropPending(at)), key); }
  }

  lemma {:induction false} FaithfulKept(codec: Codec, w: World, a: Action, key: Key)
    requires codec.Valid() && Enabled(codec, w.j, a) && Faithful(codec, w, key)
    requires a.AppendText? ==> Faithful(codec, w, a.group.key)
    ensures Faithful(codec, Step(codec, w, a), key)
  {
    match a
    case AppendText(g) => FaithfulAppend(codec, w, g, key);
    case Truncate(at) => FaithfulTruncate(codec, w, at, key);
    case DropPending(at) => FaithfulDrop(codec, w, at, key);
    case _ => FaithfulElsewhere(codec, w, Step(codec, w, a), key);
  }

  lemma {:induction false} FreshKept(codec: Codec, w: World, a: Action, key: Key)
    requires Enabled(codec, w.j, a) && Fresh(w, key)
    ensures Fresh(Step(codec, w, a), key)
  {
  }

  lemma {:induction false} SoundKept(codec: Codec, w: World, a: Action)
    requires codec.Valid() && Sound(codec, w) && Enabled(codec, w.j, a)
    ensures Sound(codec, Step(codec, w, a))
  {
    StepActs(codec, w, a);
    LoadedKept(codec, w.j, a);
    forall key ensures Fresh(Step(codec, w, a), key) { assert Fresh(w, key); FreshKept(codec, w, a, key); }
    forall key ensures Faithful(codec, Step(codec, w, a), key) {
      assert Faithful(codec, w, key);
      if a.AppendText? { assert Faithful(codec, w, a.group.key); }
      FaithfulKept(codec, w, a, key);
    }
  }

  lemma {:induction false} SoundCrash(codec: Codec, w: World)
    requires Sound(codec, w)
    ensures Sound(codec, Crashed(w))
  {
    forall key ensures Fresh(Crashed(w), key) { assert Fresh(w, key); }
    forall key ensures Faithful(codec, Crashed(w), key) {
      assert Faithful(codec, w, key);
      FaithfulElsewhere(codec, w, Crashed(w), key);
    }
  }

  /** A torn append leaves the lines of the first few entries, and part of a line. */
  lemma {:induction false} TornLines(codec: Codec, g: Group, n: nat)
    requires codec.Valid() && g.entries != [] && n <= |Text(codec, g.entries)|
    ensures var part := Text(codec, g.entries)[..n];
            |WholeLines(part)| <= |g.entries| && WholeLines(part) == Map(codec.encode, g.entries[..|WholeLines(part)|])
  {
    TextLines(codec, g.entries);
    PrefixLines(Text(codec, g.entries), n);
    var whole := WholeLines(Text(codec, g.entries)[..n]);
    assert whole == Map(codec.encode, g.entries)[..|whole|];
  }

  lemma {:induction false} SoundTorn(codec: Codec, w: World, g: Group, n: nat)
    requires codec.Valid() && Sound(codec, w) && Enabled(codec, w.j, AppendText(g)) && n <= |Text(codec, g.entries)|
    ensures Sound(codec, Crashed(Torn(codec, w, g, n)))
  {
    var v := Crashed(Torn(codec, w, g, n));
    var part := Text(codec, g.entries)[..n];
    TornLines(codec, g, n);
    assert Faithful(codec, w, g.key);
    FaithfulWrite(codec, w, g.key, part, g.entries[..|WholeLines(part)|]);
    forall key ensures Fresh(v, key) { assert Fresh(w, key); }
    forall key ensures Faithful(codec, v, key) {
      assert Faithful(codec, w, key);
      if key != g.key { FaithfulElsewhere(codec, w, v, key); }
    }
  }

  // ---------------------------------------------------------------- plans are fit to run

  lemma {:induction false} PlanAppend(codec: Codec, j: Journal, p: seq<Action>, q: seq<Action>)
    requires PlanOk(codec, j, p) && PlanOk(codec, Acts(codec, j, p), q)
    ensures PlanOk(codec, j, p + q)
    decreases |p|
  {
    if p == [] {
      assert p + q == q;
    } else {
      assert (p + q)[1..] == p[1..] + q;
      PlanAppend(codec, Act(codec, j, p[0]), p[1..], q);
    }
  }

  lemma {:induction false} LoadedAfter(codec: Codec, j: Journal, plan: seq<Action>)
    requires Loaded(j) && PlanOk(codec, j, plan)
    ensures Loaded(Acts(codec, j, plan)) && (j.loaded ==> Acts(codec, j, plan).loaded)
    decreases |plan|
  {
    if plan != [] {
      LoadedKept(codec, j, plan[0]);
      LoadedAfter(codec, Act(codec, j, plan[0]), plan[1..]);
    }
  }

  lemma {:induction false} PlanTwo(codec: Codec, j: Journal, a: Action, b: Action)
    requires Enabled(codec, j, a) && Enabled(codec, Act(codec, j, a), b)
    ensures PlanOk(codec, j, [a, b])
  {
    assert [a, b][1..] == [b] && [b][1..] == [];
  }

  lemma {:induction false} PlanOne(codec: Codec, j: Journal, a: Action)
    requires Enabled(codec, j, a)
    ensures PlanOk(codec, j, [a])
  {
    assert [a][1..] == [];
  }

  lemma {:induction false} EvictionsOk(codec: Codec, j: Journal, acks: seq<Ack>, i: nat)
    requires j.loaded && Loaded(j) && i <= |acks|
    ensures PlanOk(codec, j, Evictions(acks, i))
    decreases |acks| - i
  {
    if i < |acks| {
      var p := [DropPending(acks[i].key), DropDone(acks[i].key)];
      PlanTwo(codec, j, p[0], p[1]);
      LoadedAfter(codec, j, p);
      EvictionsOk(codec, Acts(codec, j, p), acks, i + 1);
      PlanAppend(codec, j, p, Evictions(acks, i + 1));
    }
  }

  lemma {:induction false} LoadOk(codec: Codec, limit: nat, j: Journal, order: seq<Key>)
    requires Loaded(j) && Lists(order, j.done)
    ensures PlanOk(codec, j, LoadPlan(codec, limit, j, order))
    ensures AfterLoad(codec, limit, j, order).loaded && Loaded(AfterLoad(codec, limit, j, order))
  {
    if !j.loaded {
      var a := LoadAcks(order);
      LoadedKept(codec, j, a);
      PlanOne(codec, j, a);
      ActsOne(codec, j, a);
      EvictionsOk(codec, Act(codec, j, a), Excess(Act(codec, j, a).acks, limit), 0);
      PlanAppend(codec, j, [a], TrimPlan(Act(codec, j, a), limit));
      LoadedAfter(codec, Act(codec, j, a), TrimPlan(Act(codec, j, a), limit));
      ActsAppend(codec, j, [a], TrimPlan(Act(codec, j, a), limit));
    }
  }

  predicate GroupOk(codec: Codec, g: Group) { g.entries != [] && AllBelong(codec, g.key, g.entries) }

  lemma {:induction false} GroupedOk(codec: Codec, acked: set<Key>, entries: seq<Entry>, n: nat)
    requires n <= |entries|
    ensures forall g <- Grouped(codec, acked, entries, n) :: GroupOk(codec, g)
  {
    if n > 0 {
      GroupedOk(codec, acked, entries, n - 1);
      var e := entries[n - 1];
      if IsJournaled(e) { AddToOk(codec, Grouped(codec, acked, entries, n - 1), codec.KeyOf(e), e); }
    }
  }

  lemma {:induction false} AddToOk(codec: Codec, groups: seq<Group>, key: Key, e: Entry)
    requires (forall g <- groups :: GroupOk(codec, g)) && Belongs(codec, key, e)
    ensures forall g <- AddTo(groups, key, e) :: GroupOk(codec, g)
  {
    var i := IndexOf(groups, key);
    if i < |groups| {
      assert GroupOk(codec, groups[i]);
      forall g | g in groups[i := Group(key, groups[i].entries + [e])] ensures GroupOk(codec, g) {
        assert g in groups || g == Group(key, groups[i].entries + [e]);
      }
    }
  }

  lemma {:induction false} AppendsOk(codec: Codec, j: Journal, groups: seq<Group>, i: nat)
    requires Loaded(j) && i <= |groups| && forall g <- groups :: GroupOk(codec, g)
    ensures PlanOk(codec, j, AppendPlan(codec, j, groups, i))
    decreases |groups| - i
  {
    if i < |groups| {
      var g := groups[i];
      var p := GroupPlan(j, g);
      assert GroupOk(codec, g);
      if g.key in j.initialized {
        assert p == [AppendText(g)];
        PlanOne(codec, j, AppendText(g));
      } else {
        assert p == [Truncate(g.key), AppendText(g)];
        PlanTwo(codec, j, Truncate(g.key), AppendText(g));
      }
      LoadedAfter(codec, j, p);
      AppendsOk(codec, Acts(codec, j, p), groups, i + 1);
      PlanAppend(codec, j, p, AppendPlan(codec, Acts(codec, j, p), groups, i + 1));
    }
  }

  lemma {:induction false} AcksOk(codec: Codec, j: Journal, keys: seq<Key>, stamps: Key -> Stamp, i: nat)
    requires j.loaded && Loaded(j) && i <= |keys|
    ensures PlanOk(codec, j, AckPlan(codec, j, keys, stamps, i))
    decreases |keys| - i
  {
    if i < |keys| {
      var key := keys[i];
      var p := KeyPlan(j, key, stamps(key));
      if key in AckKeys(j.acks) {
        assert p == [DropPending(key)];
        PlanOne(codec, j, DropPending(key));
      } else {
        assert p == [PutDone(key, stamps(key)), DropPending(key)];
        PlanTwo(codec, j, PutDone(key, stamps(key)), DropPending(key));
      }
      LoadedAfter(codec, j, p);
      AcksOk(codec, Acts(codec, j, p), keys, stamps, i + 1);
      PlanAppend(codec, j, p, AckPlan(codec, Acts(codec, j, p), keys, stamps, i + 1));
    }
  }

  lemma {:induction false} AckRestOk(codec: Codec, limit: nat, j: Journal, keys: seq<Key>, stamps: Key -> Stamp)
    requires j.loaded && Loaded(j)
    ensures PlanOk(codec, j, AckRest(codec, limit, j, keys, stamps))
  {
    if keys != [] {
      var p := AckPlan(codec, j, keys, stamps, 0);
      AcksOk(codec, j, keys, stamps, 0);
      LoadedAfter(codec, j, p);
      var v := Acts(codec, j, p);
      EvictionsOk(codec, v, Excess(v.acks, limit), 0);
      PlanAppend(codec, j, p, TrimPlan(v, limit));
    }
  }

  lemma {:induction false} DropsOk(codec: Codec, j: Journal, keys: seq<Key>)
    ensures PlanOk(codec, j, DropPlan(keys))
    decreases |keys|
  {
    if keys != [] {
      assert DropPlan(keys)[1..] == DropPlan(keys[1..]);
      DropsOk(codec, Act(codec, j, DropPending(keys[0])), keys[1..]);
    }
  }

  lemma {:induction false} PlansAreOk(codec: Codec, limit: nat, j: Journal, op: Op)
    requires Loaded(j) && MayRun(j, op)
    ensures PlanOk(codec, j, PlanOf(codec, limit, j, op))
  {
    match op
    case Load(order) => LoadOk(codec, limit, j, order);
    case Append(order, entries) =>
      LoadOk(codec, limit, j, order);
      var v := AfterLoad(codec, limit, j, order);
      var groups := Grouped(codec, AckKeys(v.acks), entries, |entries|);
      GroupedOk(codec, AckKeys(v.acks), entries, |entries|);
      AppendsOk(codec, v, groups, 0);
      PlanAppend(codec, j, LoadPlan(codec, limit, j, order), AppendPlan(codec, v, groups, 0));
    case Acknowledge(order, entries, stamps) =>
      LoadOk(codec, limit, j, order);
      var v := AfterLoad(codec, limit, j, order);
      var keys := KeysOf(codec, entries, |entries|);
      AckRestOk(codec, limit, v, keys, stamps);
      PlanAppend(codec, j, LoadPlan(codec, limit, j, order), AckRest(codec, limit, v, keys, stamps));
    case Remove(keys) => DropsOk(codec, j, keys);
  }

  // ---------------------------------------------------------------- every run

  lemma {:induction false} PrefixSound(codec: Codec, w: World, plan: seq<Action>, n: nat)
    requires codec.Valid() && Sound(codec, w) && PlanOk(codec, w.j, plan) && n <= |plan|
    ensures Sound(codec, Steps(codec, w, plan[..n]))
    ensures n < |plan| ==> Enabled(codec, Steps(codec, w, plan[..n]).j, plan[n])
    decreases n
  {
    if n > 0 {
      SoundKept(codec, w, plan[0]);
      StepActs(codec, w, plan[0]);
      assert plan[..n][1..] == plan[1..][..n - 1];
      PrefixSound(codec, Step(codec, w, plan[0]), plan[1..], n - 1);
    }
  }

  lemma {:induction false} PerformSound(codec: Codec, limit: nat, w: World, e: Event)
    requires codec.Valid() && Sound(codec, w)
    ensures Sound(codec, Perform(codec, limit, w, e))
  {
    if MayRun(w.j, e.op) {
      var plan := PlanOf(codec, limit, w.j, e.op);
      var ran := if e.ran < |plan| then e.ran else |plan|;
      PlansAreOk(codec, limit, w.j, e.op);
      PrefixSound(codec, w, plan, ran);
      var v := Steps(codec, w, plan[..ran]);
      SoundCrash(codec, v);
      if ran < |plan| && plan[ran].AppendText? && e.torn <= |Text(codec, plan[ran].group.entries)| {
        SoundTorn(codec, v, plan[ran].group, e.torn);
      }
    }
  }

  lemma {:induction false} RunSound(codec: Codec, limit: nat, w: World, events: seq<Event>)
    requires codec.Valid() && Sound(codec, w)
    ensures Sound(codec, Run(codec, limit, w, events))
    decreases |events|
  {
    if events != [] {
      PerformSound(codec, limit, w, events[0]);
      RunSound(codec, limit, Perform(codec, limit, w, events[0]), events[1..]);
    }
  }

  lemma {:induction false} EmptySound(codec: Codec)
    ensures Sound(codec, EMPTY)
  {
    forall key ensures Faithful(codec, EMPTY, key) {}
  }

  /** At every point of every run, crashes and errors included: a turn that was ever acknowledged
      has its done file, or its pending file was created after the acknowledgement. So a load,
      which passes over the acknowledged turns it knows, never replays what was exported. */
  lemma {:induction false} ExportedIsNeverReplayed(codec: Codec, limit: nat, events: seq<Event>, key: Key)
    requires codec.Valid()
    ensures var w := Run(codec, limit, EMPTY, events);
            && (key in w.lastAck && key in w.j.pending ==>
                  key in w.j.done || (key in w.born && w.lastAck[key] < w.born[key]))
            && (w.j.loaded && key in w.lastAck && key in w.j.pending && key !in AckKeys(w.j.acks) ==>
                  key in w.born && w.lastAck[key] < w.born[key])
  {
    EmptySound(codec);
    RunSound(codec, limit, EMPTY, events);
    assert Fresh(Run(codec, limit, EMPTY, events), key);
  }

  /** At every point of every run, loading a pending turn yields the entries of its whole lines,
      once per event id, in the order of their first occurrence. */
  lemma {:induction false} LoadYieldsTheLog(codec: Codec, limit: nat, events: seq<Event>, key: Key)
    requires codec.Valid()
    ensures var w := Run(codec, limit, EMPTY, events);
            var lines := WholeLines(Content(w.j.pending, key));
            Entries(Replayed(codec, key, lines, |lines|)) == FirstOnly(Log(w, key), |Log(w, key)|)
  {
    EmptySound(codec);
    RunSound(codec, limit, EMPTY, events);
    var w := Run(codec, limit, EMPTY, events);
    assert Faithful(codec, w, key);
    ReplayIsFirstOnly(codec, key, Log(w, key));
  }

  // ---------------------------------------------------------------- a completed append is on record

  /** The entries of one turn among the first `n`. */
  function Select(codec: Codec, key: Key, entries: seq<Entry>, n: nat): seq<Entry>
    requires n <= |entries|
  {
    if n == 0 then []
    else Select(codec, key, entries, n - 1) + if Belongs(codec, key, entries[n - 1]) then [entries[n - 1]] else []
  }

  /** What groups `i` and up hold for a turn. */
  function Picked(groups: seq<Group>, i: nat, key: Key): seq<Entry>
    requires i <= |groups|
    decreases |groups| - i
  {
    if i == |groups| then [] else (if groups[i].key == key then groups[i].entries else []) + Picked(groups, i + 1, key)
  }

  predicate DistinctGroups(groups: seq<Group>) {
    forall i, k :: 0 <= i < k < |groups| ==> groups[i].key != groups[k].key
  }

  lemma {:induction false} PickedNone(groups: seq<Group>, i: nat, key: Key)
    requires i <= |groups| && forall k :: i <= k < |groups| ==> groups[k].key != key
    ensures Picked(groups, i, key) == []
    decreases |groups| - i
  {
    if i < |groups| { PickedNone(groups, i + 1, key); }
  }

  lemma {:induction false} PickedOne(groups: seq<Group>, i: nat, at: nat)
    requires i <= at < |groups| && DistinctGroups(groups)
    ensures Picked(groups, i, groups[at].key) == groups[at].entries
    decreases |groups| - i
  {
    if i == at { PickedNone(groups, i + 1, groups[at].key); } else { PickedOne(groups, i + 1, at); }
  }

  lemma {:induction false} PickedIs(groups: seq<Group>, key: Key)
    requires DistinctGroups(groups)
    ensures Picked(groups, 0, key) == var i := IndexOf(groups, key); if i < |groups| then groups[i].entries else []
  {
    var i := IndexOf(groups, key);
    if i < |groups| { PickedOne(groups, 0, i); } else { PickedNone(groups, 0, key); }
  }

  lemma {:induction false} AddToDistinct(groups: seq<Group>, key: Key, e: Entry)
    requires DistinctGroups(groups)
    ensures DistinctGroups(AddTo(groups, key, e))
  {
  }

  lemma {:induction false} AddToPicked(groups: seq<Group>, key: Key, e: Entry, other: Key)
    requires DistinctGroups(groups)
    ensures Picked(AddTo(groups, key, e), 0, other) == Picked(groups, 0, other) + if other == key then [e] else []
  {
    var after, i, o := AddTo(groups, key, e), IndexOf(groups, key), IndexOf(groups, other);
    AddToDistinct(groups, key, e);
    PickedIs(groups, other);
    PickedIs(after, other);
    if other == key {
      IndexIs(after, other, i, true);
    } else {
      IndexIs(after, other, o, o < |groups|);
    }
  }

  lemma {:induction false} IndexIs(groups: seq<Group>, key: Key, i: nat, found: bool)
    requires DistinctGroups(groups)
    requires if found then i < |groups| && groups[i].key == key else forall k :: 0 <= k < |groups| ==> groups[k].key != key
    ensures if found then IndexOf(groups, key) == i else IndexOf(groups, key) == |groups|
  {
  }

  lemma {:induction false} GroupedSelects(codec: Codec, acked: set<Key>, entries: seq<Entry>, n: nat, key: Key)
    requires n <= |entries|
    ensures DistinctGroups(Grouped(codec, acked, entries, n))
    ensures Picked(Grouped(codec, acked, entries, n), 0, key)
         == if key in acked then [] else Select(codec, key, entries, n)
  {
    if n > 0 {
      GroupedSelects(codec, acked, entries, n - 1, key);
      var e := entries[n - 1];
      if IsJournaled(e) && codec.KeyOf(e) !in acked {
        AddToDistinct(Grouped(codec, acked, entries, n - 1), codec.KeyOf(e), e);
        AddToPicked(Grouped(codec, acked, entries, n - 1), codec.KeyOf(e), e, key);
      }
    }
  }

  lemma {:induction false} StepsAppend(codec: Codec, w: World, p: seq<Action>, q: seq<Action>)
    ensures Steps(codec, w, p + q) == Steps(codec, Steps(codec, w, p), q)
    decreases |p|
  {
    if p == [] {
      assert p + q == q;
    } else {
      assert (p + q)[1..] == p[1..] + q;
      StepsAppend(codec, Step(codec, w, p[0]), p[1..], q);
    }
  }

  lemma {:induction false} WriteRecords(codec: Codec, w: World, g: Group, key: Key)
    ensures Log(Step(codec, w, AppendText(g)), key) == Log(w, key) + if g.key == key then g.entries else []
  {
    assert Log(w, key) + [] == Log(w, key);
  }

  lemma {:induction false} GroupRecords(codec: Codec, w: World, g: Group, key: Key)
    ensures Log(Steps(codec, w, GroupPlan(w.j, g)), key) == Log(w, key) + if g.key == key then g.entries else []
  {
    WriteRecords(codec, w, g, key);
    if g.key in w.j.initialized {
      var p := [AppendText(g)];
      assert GroupPlan(w.j, g) == p && p[1..] == [];
      assert Steps(codec, w, p) == Step(codec, w, p[0]);
    } else {
      var p := [Truncate(g.key), AppendText(g)];
      var v := Step(codec, w, p[0]);
      assert GroupPlan(w.j, g) == p && p[1..] == [AppendText(g)] && p[1..][1..] == [];
      assert Steps(codec, v, p[1..]) == Step(codec, v, AppendText(g));
      WriteRecords(codec, v, g, key);
    }
  }

  lemma {:induction false} AppendRecords(codec: Codec, w: World, groups: seq<Group>, i: nat, key: Key)
    requires i <= |groups|
    ensures Log(Steps(codec, w, AppendPlan(codec, w.j, groups, i)), key) == Log(w, key) + Picked(groups, i, key)
    decreases |groups| - i
  {
    if i < |groups| {
      var p := GroupPlan(w.j, groups[i]);
      var v := Steps(codec, w, p);
      StepsAct(codec, w, p);
      StepsAppend(codec, w, p, AppendPlan(codec, v.j, groups, i + 1));
      GroupRecords(codec, w, groups[i], key);
      AppendRecords(codec, v, groups, i + 1, key);
      var here := if groups[i].key == key then groups[i].entries else [];
      AppendAssociates(Log(w, key), here, Picked(groups, i + 1, key));
      assert AppendPlan(codec, w.j, groups, i) == p + AppendPlan(codec, v.j, groups, i + 1);
    } else {
      assert Log(w, key) + [] == Log(w, key);
    }
  }

  /** A completed append, the first of a process or a later one: once the acknowledgements are
      loaded it records, for every turn not acknowledged, exactly its entries of that turn, in
      order, after what was there. */
  lemma {:induction false} CompletedAppendIsRecorded(codec: Codec, limit: nat, w: World, order: seq<Key>,
        entries: seq<Entry>, key: Key)
    ensures var u := Steps(codec, w, LoadPlan(codec, limit, w.j, order));
            var v := Steps(codec, w, PlanOf(codec, limit, w.j, Append(order, entries)));
            Log(v, key) == Log(u, key)
              + if key in AckKeys(u.j.acks) then [] else Select(codec, key, entries, |entries|)
  {
    var load := LoadPlan(codec, limit, w.j, order);
    var u := Steps(codec, w, load);
    var groups := Grouped(codec, AckKeys(u.j.acks), entries, |entries|);
    StepsAct(codec, w, load);
    StepsAppend(codec, w, load, AppendPlan(codec, u.j, groups, 0));
    AppendRecords(codec, u, groups, 0, key);
    GroupedSelects(codec, AckKeys(u.j.acks), entries, |entries|, key);
  }

  predicate Keeps(plan: seq<Action>, key: Key) { forall i :: 0 <= i < |plan| ==> plan[i] != DropPending(key) }

  lemma {:induction false} LogGrows(codec: Codec, w: World, plan: seq<Action>, key: Key)
    requires Keeps(plan, key)
    ensures Log(w, key) <= Log(Steps(codec, w, plan), key)
    decreases |plan|
  {
    if plan != [] {
      LogGrows(codec, Step(codec, w, plan[0]), plan[1..], key);
    }
  }

  // ---------------------------------------------------------------- bounded, oldest first

  predicate Ascending(acks: seq<Ack>) { forall i, k :: 0 <= i < k < |acks| ==> acks[i].time <= acks[k].time }

  lemma {:induction false} InsertSorts(a: Ack, acks: seq<Ack>)
    requires Ascending(acks)
    ensures Ascending(Insert(a, acks)) && multiset(Insert(a, acks)) == multiset{a} + multiset(acks)
  {
    if acks != [] && a.time > acks[0].time {
      InsertSorts(a, acks[1..]);
      assert [acks[0]] + acks[1..] == acks;
      ConsAscends(acks[0], Insert(a, acks[1..]), a, acks[1..]);
    }
  }

  lemma {:induction false} ConsAscends(first: Ack, rest: seq<Ack>, a: Ack, from: seq<Ack>)
    requires Ascending(rest) && multiset(rest) == multiset{a} + multiset(from)
    requires first.time <= a.time && forall k :: 0 <= k < |from| ==> first.time <= from[k].time
    ensures Ascending([first] + rest)
  {
    forall k | 0 <= k < |rest| ensures first.time <= rest[k].time {
      assert rest[k] in multiset(rest);
      assert rest[k] == a || rest[k] in from;
    }
  }

  lemma {:induction false} SortSorts(acks: seq<Ack>)
    ensures Ascending(SortByTime(acks)) && multiset(SortByTime(acks)) == multiset(acks)
  {
    if acks != [] {
      SortSorts(acks[1..]);
      InsertSorts(acks[0], SortByTime(acks[1..]));
      assert [acks[0]] + acks[1..] == acks;
    }
  }

  /** No evicted acknowledgement is newer than one that is kept. */
  lemma {:induction false} EvictedAreOldest(acks: seq<Ack>, limit: nat, evicted: Ack, kept: Ack)
    requires evicted in Excess(acks, limit) && kept in acks && kept !in Excess(acks, limit)
    ensures evicted.time <= kept.time
  {
    SortSorts(acks);
    var sorted := SortByTime(acks);
    SortLength(acks);
    assert kept in multiset(sorted);
    var n := |acks| - limit;
    assert forall m :: 0 <= m < n ==> sorted[..n][m] == sorted[m];
    var i :| 0 <= i < |sorted| && sorted[i] == kept;
    var k :| 0 <= k < n && sorted[..n][k] == evicted;
    assert n <= i;
  }

  lemma {:induction false} EvictionsDrop(codec: Codec, j: Journal, acks: seq<Ack>, i: nat)
    requires i <= |acks|
    ensures Acts(codec, j, Evictions(acks, i)).done.Keys == j.done.Keys - AckKeys(acks[i..])
    decreases |acks| - i
  {
    if i < |acks| {
      var key := acks[i].key;
      var v := Act(codec, Act(codec, j, DropPending(key)), DropDone(key));
      ActsTwo(codec, j, DropPending(key), DropDone(key), Evictions(acks, i + 1));
      EvictionsDrop(codec, v, acks, i + 1);
      assert acks[i..] == [acks[i]] + acks[i + 1..];
      ConsKeys(acks[i], acks[i + 1..]);
    }
  }

  lemma {:induction false} DistinctCount(acks: seq<Ack>)
    requires Distinct(acks)
    ensures |AckKeys(acks)| == |acks|
  {
    if acks != [] {
      assert [acks[0]] + acks[1..] == acks;
      ConsKeys(acks[0], acks[1..]);
      DistinctCount(acks[1..]);
    }
  }

  lemma {:induction false} DistinctByCount(acks: seq<Ack>)
    requires |AckKeys(acks)| == |acks|
    ensures Distinct(acks)
  {
    if acks != [] {
      assert [acks[0]] + acks[1..] == acks;
      ConsKeys(acks[0], acks[1..]);
      KeysAtMost(acks[1..]);
      assert AckKeys(acks) == AckKeys(acks[1..]) || acks[0].key !in AckKeys(acks[1..]);
      DistinctByCount(acks[1..]);
    }
  }

  lemma {:induction false} KeysAtMost(acks: seq<Ack>)
    ensures |AckKeys(acks)| <= |acks|
  {
    if acks != [] {
      assert [acks[0]] + acks[1..] == acks;
      ConsKeys(acks[0], acks[1..]);
      KeysAtMost(acks[1..]);
    }
  }

  lemma {:induction false} SameKeys(a: seq<Ack>, b: seq<Ack>)
    requires multiset(a) == multiset(b)
    ensures AckKeys(a) == AckKeys(b)
  {
    forall k | k in AckKeys(a) ensures k in AckKeys(b) {
      var i :| 0 <= i < |a| && a[i].key == k;
      assert a[i] in multiset(b);
      var n :| 0 <= n < |b| && b[n] == a[i];
    }
    forall k | k in AckKeys(b) ensures k in AckKeys(a) {
      var i :| 0 <= i < |b| && b[i].key == k;
      assert b[i] in multiset(a);
      var n :| 0 <= n < |a| && a[n] == b[i];
    }
  }

  lemma {:induction false} ExcessCount(acks: seq<Ack>, limit: nat)
    requires Distinct(acks) && |acks| > limit
    ensures AckKeys(Excess(acks, limit)) <= AckKeys(acks) && |AckKeys(Excess(acks, limit))| == |acks| - limit
  {
    var sorted := SortByTime(acks);
    SortSorts(acks);
    SortLength(acks);
    SameKeys(sorted, acks);
    DistinctCount(acks);
    DistinctByCount(sorted);
    DistinctCount(sorted[..|acks| - limit]);
    PrefixKeys(sorted, |acks| - limit);
  }

  lemma {:induction false} PrefixKeys(acks: seq<Ack>, n: nat)
    requires n <= |acks|
    ensures AckKeys(acks[..n]) <= AckKeys(acks)
  {
    forall k | k in AckKeys(acks[..n]) ensures k in AckKeys(acks) {
      var i :| 0 <= i < n && acks[..n][i].key == k;
      assert acks[i].key == k;
    }
  }

  /** A completed trim leaves at most `limit` done files, and exactly that many if it evicted any. */
  lemma {:induction false} TrimBounds(codec: Codec, limit: nat, j: Journal)
    requires j.loaded && Loaded(j)
    ensures |Acts(codec, j, TrimPlan(j, limit)).done| == if |j.done| <= limit then |j.done| else limit
  {
    DistinctCount(j.acks);
    assert |j.done| == |j.done.Keys|;
    if |j.acks| > limit {
      ExcessCount(j.acks, limit);
      TrimDrops(codec, limit, j);
      Difference(j.done.Keys, AckKeys(Excess(j.acks, limit)));
    }
  }

  lemma {:induction false} TrimDrops(codec: Codec, limit: nat, j: Journal)
    ensures |Acts(codec, j, TrimPlan(j, limit)).done| == |j.done.Keys - AckKeys(Excess(j.acks, limit))|
  {
    var excess := Excess(j.acks, limit);
    EvictionsDrop(codec, j, excess, 0);
    assert excess[0..] == excess;
    var v := Acts(codec, j, TrimPlan(j, limit));
    assert |v.done| == |v.done.Keys|;
  }

  lemma {:induction false} Difference(a: set<Key>, b: set<Key>)
    requires b <= a
    ensures |a - b| == |a| - |b|
  {
    assert a == (a - b) + b;
  }

  // ---------------------------------------------------------------- nothing goes before its acknowledgement

  /** A plan that deletes a pending file only while its turn's done file is there. */
  predicate Guards(codec: Codec, j: Journal, plan: seq<Action>)
    decreases |plan|
  {
    plan == [] || ((plan[0].DropPending? ==> plan[0].key in j.done) && Guards(codec, Act(codec, j, plan[0]), plan[1..]))
  }

  lemma {:induction false} GuardsAppend(codec: Codec, j: Journal, p: seq<Action>, q: seq<Action>)
    requires Guards(codec, j, p) && Guards(codec, Acts(codec, j, p), q)
    ensures Guards(codec, j, p + q)
    decreases |p|
  {
    if p == [] {
      assert p + q == q;
    } else {
      assert (p + q)[1..] == p[1..] + q;
      GuardsAppend(codec, Act(codec, j, p[0]), p[1..], q);
    }
  }

  lemma {:induction false} GuardsTwo(codec: Codec, j: Journal, a: Action, b: Action)
    requires a.DropPending? ==> a.key in j.done
    requires b.DropPending? ==> b.key in Act(codec, j, a).done
    ensures Guards(codec, j, [a, b])
  {
    assert [a, b][1..] == [b] && [b][1..] == [];
  }

  lemma {:induction false} GuardsOne(codec: Codec, j: Journal, a: Action)
    requires a.DropPending? ==> a.key in j.done
    ensures Guards(codec, j, [a])
  {
    assert [a][1..] == [];
  }

  lemma {:induction false} EvictionsGuard(codec: Codec, j: Journal, acks: seq<Ack>, i: nat)
    requires i <= |acks| && Distinct(acks) && forall k :: i <= k < |acks| ==> acks[k].key in j.done
    ensures Guards(codec, j, Evictions(acks, i))
    decreases |acks| - i
  {
    if i < |acks| {
      var a, b := DropPending(acks[i].key), DropDone(acks[i].key);
      GuardsTwo(codec, j, a, b);
      ActsTwo(codec, j, a, b, []);
      assert [a, b] + [] == [a, b];
      EvictionsGuard(codec, Acts(codec, j, [a, b]), acks, i + 1);
      GuardsAppend(codec, j, [a, b], Evictions(acks, i + 1));
    }
  }

  lemma {:induction false} TrimGuards(codec: Codec, limit: nat, j: Journal)
    requires j.loaded && Loaded(j)
    ensures Guards(codec, j, TrimPlan(j, limit))
  {
    var excess := Excess(j.acks, limit);
    if excess != [] {
      ExcessCount(j.acks, limit);
      SortLength(j.acks);
      DistinctByCount(excess);
      forall k | 0 <= k < |excess| ensures excess[k].key in j.done { assert excess[k].key in AckKeys(excess); }
      EvictionsGuard(codec, j, excess, 0);
    }
  }

  lemma {:induction false} LoadGuards(codec: Codec, limit: nat, j: Journal, order: seq<Key>)
    requires Loaded(j) && Lists(order, j.done)
    ensures Guards(codec, j, LoadPlan(codec, limit, j, order))
  {
    if !j.loaded {
      var a := LoadAcks(order);
      LoadedKept(codec, j, a);
      GuardsOne(codec, j, a);
      ActsOne(codec, j, a);
      TrimGuards(codec, limit, Act(codec, j, a));
      GuardsAppend(codec, j, [a], TrimPlan(Act(codec, j, a), limit));
    }
  }

  lemma {:induction false} AckGuards(codec: Codec, j: Journal, keys: seq<Key>, stamps: Key -> Stamp, i: nat)
    requires j.loaded && Loaded(j) && i <= |keys|
    ensures Guards(codec, j, AckPlan(codec, j, keys, stamps, i))
    decreases |keys| - i
  {
    if i < |keys| {
      var key := keys[i];
      var p := KeyPlan(j, key, stamps(key));
      if key in AckKeys(j.acks) {
        assert p == [DropPending(key)];
        GuardsOne(codec, j, DropPending(key));
        PlanOne(codec, j, DropPending(key));
      } else {
        assert p == [PutDone(key, stamps(key)), DropPending(key)];
        GuardsTwo(codec, j, PutDone(key, stamps(key)), DropPending(key));
        PlanTwo(codec, j, PutDone(key, stamps(key)), DropPending(key));
      }
      LoadedAfter(codec, j, p);
      AckGuards(codec, Acts(codec, j, p), keys, stamps, i + 1);
      GuardsAppend(codec, j, p, AckPlan(codec, Acts(codec, j, p), keys, stamps, i + 1));
    }
  }

  lemma {:induction false} AppendGuards(codec: Codec, j: Journal, groups: seq<Group>, i: nat)
    requires i <= |groups|
    ensures Guards(codec, j, AppendPlan(codec, j, groups, i))
    decreases |groups| - i
  {
    if i < |groups| {
      var g := groups[i];
      var p := GroupPlan(j, g);
      if g.key in j.initialized {
        assert p == [AppendText(g)];
        GuardsOne(codec, j, AppendText(g));
      } else {
        assert p == [Truncate(g.key), AppendText(g)];
        GuardsTwo(codec, j, Truncate(g.key), AppendText(g));
      }
      AppendGuards(codec, Acts(codec, j, p), groups, i + 1);
      GuardsAppend(codec, j, p, AppendPlan(codec, Acts(codec, j, p), groups, i + 1));
    }
  }

  /** Loading, appending and acknowledging delete pending content only while the acknowledgement is
      on disk: at no point of them is a turn that was pending neither pending nor acknowledged,
      until its acknowledgement is itself evicted. Only `remove` forgets outright. */
  lemma {:induction false} PendingGoesOnlyOnceAcknowledged(codec: Codec, limit: nat, w: World, op: Op)
    requires Loaded(w.j) && MayRun(w.j, op) && !op.Remove?
    ensures Guards(codec, w.j, PlanOf(codec, limit, w.j, op))
  {
    var j := w.j;
    LoadGuards(codec, limit, j, op.order);
    LoadOk(codec, limit, j, op.order);
    var v := AfterLoad(codec, limit, j, op.order);
    match op
    case Load(_) =>
    case Append(order, entries) =>
      var groups := Grouped(codec, AckKeys(v.acks), entries, |entries|);
      AppendGuards(codec, v, groups, 0);
      GuardsAppend(codec, j, LoadPlan(codec, limit, j, order), AppendPlan(codec, v, groups, 0));
    case Acknowledge(order, entries, stamps) =>
      var keys := KeysOf(codec, entries, |entries|);
      AckRestGuards(codec, limit, v, keys, stamps);
      GuardsAppend(codec, j, LoadPlan(codec, limit, j, order), AckRest(codec, limit, v, keys, stamps));
  }

  lemma {:induction false} AckRestGuards(codec: Codec, limit: nat, j: Journal, keys: seq<Key>, stamps: Key -> Stamp)
    requires j.loaded && Loaded(j)
    ensures Guards(codec, j, AckRest(codec, limit, j, keys, stamps))
  {
    if keys != [] {
      var p := AckPlan(codec, j, keys, stamps, 0);
      AckGuards(codec, j, keys, stamps, 0);
      AcksOk(codec, j, keys, stamps, 0);
      LoadedAfter(codec, j, p);
      TrimGuards(codec, limit, Acts(codec, j, p));
      GuardsAppend(codec, j, p, TrimPlan(Acts(codec, j, p), limit));
    }
  }

  /** After a first load, and after an acknowledgement of at least one turn, the done files number
      at most the limit. */
  lemma {:induction false} DoneFilesAreBounded(codec: Codec, limit: nat, w: World, order: seq<Key>, entries: seq<Entry>,
                            stamps: Key -> Stamp)
    requires Loaded(w.j) && Lists(order, w.j.done)
    ensures !w.j.loaded ==> |Acts(codec, w.j, PlanOf(codec, limit, w.j, Load(order))).done| <= limit
    ensures KeysOf(codec, entries, |entries|) != [] ==>
              |Acts(codec, w.j, PlanOf(codec, limit, w.j, Acknowledge(order, entries, stamps))).done| <= limit
  {
    LoadOk(codec, limit, w.j, order);
    if !w.j.loaded { LoadBounds(codec, limit, w.j, order); }
    var v := AfterLoad(codec, limit, w.j, order);
    var keys := KeysOf(codec, entries, |entries|);
    if keys != [] {
      var p := AckPlan(codec, v, keys, stamps, 0);
      AcksOk(codec, v, keys, stamps, 0);
      LoadedAfter(codec, v, p);
      ActsAppend(codec, w.j, LoadPlan(codec, limit, w.j, order), AckRest(codec, limit, v, keys, stamps));
      ActsAppend(codec, v, p, TrimPlan(Acts(codec, v, p), limit));
      TrimBounds(codec, limit, Acts(codec, v, p));
    }
  }

  lemma {:induction false} LoadBounds(codec: Codec, limit: nat, j: Journal, order: seq<Key>)
    requires Loaded(j) && Lists(order, j.done) && !j.loaded
    ensures |AfterLoad(codec, limit, j, order).done| <= limit
  {
    var a := LoadAcks(order);
    LoadedKept(codec, j, a);
    ActsOne(codec, j, a);
    ActsAppend(codec, j, [a], TrimPlan(Act(codec, j, a), limit));
    TrimBounds(codec, limit, Act(codec, j, a));
  }

  // ---------------------------------------------------------------- what was appended stays and is loaded

  /** The operations that may end a turn. */
  predicate Names(codec: Codec, op: Op, key: Key) {
    match op
    case Acknowledge(_, entries, _) => key in KeysOf(codec, entries, |entries|)
    case Remove(keys) => key in keys
    case _ => false
  }

  predicate NeverDone(plan: seq<Action>, key: Key) {
    forall i :: 0 <= i < |plan| ==> !(plan[i].PutDone? && plan[i].key == key)
  }

  lemma {:induction false} EvictionsNeverDone(acks: seq<Ack>, i: nat, key: Key)
    requires i <= |acks|
    ensures NeverDone(Evictions(acks, i), key)
    decreases |acks| - i
  {
    if i < |acks| { EvictionsNeverDone(acks, i + 1, key); }
  }

  lemma {:induction false} LoadNeverDone(codec: Codec, limit: nat, j: Journal, order: seq<Key>, key: Key)
    ensures NeverDone(LoadPlan(codec, limit, j, order), key)
  {
    EvictionsNeverDone(Excess(Act(codec, j, LoadAcks(order)).acks, limit), 0, key);
  }

  lemma {:induction false} AppendNeverDone(codec: Codec, j: Journal, groups: seq<Group>, i: nat, key: Key)
    requires i <= |groups|
    ensures NeverDone(AppendPlan(codec, j, groups, i), key)
    decreases |groups| - i
  {
    if i < |groups| { AppendNeverDone(codec, Acts(codec, j, GroupPlan(j, groups[i])), groups, i + 1, key); }
  }

  lemma {:induction false} AckNeverDone(codec: Codec, j: Journal, keys: seq<Key>, stamps: Key -> Stamp, i: nat,
        key: Key)
    requires i <= |keys| && key !in keys
    ensures NeverDone(AckPlan(codec, j, keys, stamps, i), key)
    decreases |keys| - i
  {
    if i < |keys| {
      AckNeverDone(codec, Acts(codec, j, KeyPlan(j, keys[i], stamps(keys[i]))), keys, stamps, i + 1, key);
    }
  }

  lemma {:induction false} AckRestNeverDone(codec: Codec, limit: nat, j: Journal, keys: seq<Key>, stamps: Key -> Stamp,
        key: Key)
    requires key !in keys
    ensures NeverDone(AckRest(codec, limit, j, keys, stamps), key)
  {
    if keys != [] {
      AckNeverDone(codec, j, keys, stamps, 0, key);
      EvictionsNeverDone(Excess(Acts(codec, j, AckPlan(codec, j, keys, stamps, 0)).acks, limit), 0, key);
    }
  }

  /** Only an acknowledgement of the turn writes its done file. */
  lemma {:induction false} UnnamedNeverDone(codec: Codec, limit: nat, j: Journal, op: Op, key: Key)
    requires !Names(codec, op, key)
    ensures NeverDone(PlanOf(codec, limit, j, op), key)
  {
    if !op.Remove? {
      LoadNeverDone(codec, limit, j, op.order, key);
      var v := AfterLoad(codec, limit, j, op.order);
      match op
      case Append(_, entries) =>
        AppendNeverDone(codec, v, Grouped(codec, AckKeys(v.acks), entries, |entries|), 0, key);
      case Acknowledge(_, entries, stamps) =>
        AckRestNeverDone(codec, limit, v, KeysOf(codec, entries, |entries|), stamps, key);
      case _ =>
    }
  }

  /** A plan that deletes only what is acknowledged keeps a turn that is not, and does not become. */
  lemma {:induction false} GuardedKeeps(codec: Codec, j: Journal, plan: seq<Action>, key: Key)
    requires Guards(codec, j, plan) && key !in j.done && NeverDone(plan, key)
    ensures Keeps(plan, key)
    decreases |plan|
  {
    if plan != [] {
      assert !(plan[0].PutDone? && plan[0].key == key);
      GuardedKeeps(codec, Act(codec, j, plan[0]), plan[1..], key);
      assert plan == [plan[0]] + plan[1..];
    }
  }

  lemma {:induction false} StaysUndone(codec: Codec, w: World, plan: seq<Action>, key: Key)
    requires key !in w.j.done && NeverDone(plan, key)
    ensures key !in Steps(codec, w, plan).j.done
    decreases |plan|
  {
    if plan != [] {
      assert !(plan[0].PutDone? && plan[0].key == key);
      StaysUndone(codec, Step(codec, w, plan[0]), plan[1..], key);
    }
  }

  /** The plan of an operation that does not name an unacknowledged turn keeps its pending file. */
  lemma {:induction false} UnnamedKeeps(codec: Codec, limit: nat, j: Journal, op: Op, key: Key)
    requires Loaded(j) && MayRun(j, op) && key !in j.done && !Names(codec, op, key)
    ensures Keeps(PlanOf(codec, limit, j, op), key)
  {
    if !op.Remove? {
      UnnamedNeverDone(codec, limit, j, op, key);
      PendingGoesOnlyOnceAcknowledged(codec, limit, World(j, 0, map[], map[], map[]), op);
      GuardedKeeps(codec, j, PlanOf(codec, limit, j, op), key);
    }
  }

  /** Whatever an event completes, breaks off or tears: what was recorded of an unacknowledged turn
      stays recorded, and the turn unacknowledged, unless the event acknowledges or removes it. */
  lemma {:induction false} RecordedStays(codec: Codec, limit: nat, w: World, e: Event, key: Key)
    requires Loaded(w.j) && key !in w.j.done && !Names(codec, e.op, key)
    ensures var v := Perform(codec, limit, w, e);
            Log(w, key) <= Log(v, key) && key !in v.j.done
  {
    if MayRun(w.j, e.op) {
      var plan := PlanOf(codec, limit, w.j, e.op);
      var ran := if e.ran < |plan| then e.ran else |plan|;
      UnnamedKeeps(codec, limit, w.j, e.op, key);
      UnnamedNeverDone(codec, limit, w.j, e.op, key);
      LogGrows(codec, w, plan[..ran], key);
      StaysUndone(codec, w, plan[..ran], key);
    }
  }

  lemma {:induction false} RecordedStaysInRun(codec: Codec, limit: nat, w: World, events: seq<Event>, key: Key)
    requires codec.Valid() && Sound(codec, w) && key !in w.j.done
    requires forall i :: 0 <= i < |events| ==> !Names(codec, events[i].op, key)
    ensures var v := Run(codec, limit, w, events);
            Log(w, key) <= Log(v, key) && key !in v.j.done
    decreases |events|
  {
    if events != [] {
      PerformSound(codec, limit, w, events[0]);
      RecordedStays(codec, limit, w, events[0], key);
      RecordedStaysInRun(codec, limit, Perform(codec, limit, w, events[0]), events[1..], key);
    }
  }

  /** The event is an append that got to the end of its plan; the process may die right after. */
  predicate Completes(codec: Codec, limit: nat, j: Journal, e: Event) {
    e.op.Append? && MayRun(j, e.op) && |PlanOf(codec, limit, j, e.op)| <= e.ran
  }

  predicate WritesNothing(plan: seq<Action>) { forall i :: 0 <= i < |plan| ==> !plan[i].AppendText? }

  lemma {:induction false} EvictionsWriteNothing(acks: seq<Ack>, i: nat)
    requires i <= |acks|
    ensures WritesNothing(Evictions(acks, i))
    decreases |acks| - i
  {
    if i < |acks| { EvictionsWriteNothing(acks, i + 1); }
  }

  lemma {:induction false} LoadWritesNothing(codec: Codec, limit: nat, j: Journal, order: seq<Key>)
    ensures WritesNothing(LoadPlan(codec, limit, j, order))
  {
    EvictionsWriteNothing(Excess(Act(codec, j, LoadAcks(order)).acks, limit), 0);
  }

  lemma {:induction false} LogUnchanged(codec: Codec, w: World, plan: seq<Action>, key: Key)
    requires Keeps(plan, key) && WritesNothing(plan)
    ensures Log(Steps(codec, w, plan), key) == Log(w, key)
    decreases |plan|
  {
    if plan != [] { LogUnchanged(codec, Step(codec, w, plan[0]), plan[1..], key); }
  }

  lemma {:induction false} CompletedAddsTo(codec: Codec, limit: nat, w: World, e: Event, key: Key)
    requires Loaded(w.j) && Completes(codec, limit, w.j, e) && key !in w.j.done
    ensures Log(w, key) + Select(codec, key, e.op.entries, |e.op.entries|) <= Log(Perform(codec, limit, w, e), key)
  {
    var plan, load := PlanOf(codec, limit, w.j, e.op), LoadPlan(codec, limit, w.j, e.op.order);
    var u := Steps(codec, w, load);
    LoadGuards(codec, limit, w.j, e.op.order);
    LoadNeverDone(codec, limit, w.j, e.op.order, key);
    GuardedKeeps(codec, w.j, load, key);
    LoadWritesNothing(codec, limit, w.j, e.op.order);
    LogUnchanged(codec, w, load, key);
    StaysUndone(codec, w, load, key);
    StepsAct(codec, w, load);
    LoadOk(codec, limit, w.j, e.op.order);
    assert key !in AckKeys(u.j.acks);
    CompletedAppendIsRecorded(codec, limit, w, e.op.order, e.op.entries, key);
    assert e.op == Append(e.op.order, e.op.entries) && plan[..|plan|] == plan;
    var v := Steps(codec, w, plan);
    assert Log(v, key) == Log(u, key) + Select(codec, key, e.op.entries, |e.op.entries|);
    assert Perform(codec, limit, w, e) in {v, Crashed(v)};
  }

  lemma {:induction false} RunAppend(codec: Codec, limit: nat, w: World, p: seq<Event>, q: seq<Event>)
    ensures Run(codec, limit, w, p + q) == Run(codec, limit, Run(codec, limit, w, p), q)
    decreases |p|
  {
    if p == [] {
      assert p + q == q;
    } else {
      assert (p + q)[1..] == p[1..] + q;
      RunAppend(codec, limit, Perform(codec, limit, w, p[0]), p[1..], q);
    }
  }

  /** Over any sequence of appends, crashes inside an append, restarts and re-appends: a completed
      append of an unacknowledged turn follows what was recorded before it, and all of that stays
      at the front of the turn's log until the turn is acknowledged or removed. */
  lemma {:induction false} CompletedAppendsStay(codec: Codec, limit: nat, events: seq<Event>, i: nat, key: Key)
    requires codec.Valid() && i < |events|
    requires var w := Run(codec, limit, EMPTY, events[..i]);
             Completes(codec, limit, w.j, events[i]) && key !in w.j.done
    requires forall k :: i < k < |events| ==> !Names(codec, events[k].op, key)
    ensures var w, v := Run(codec, limit, EMPTY, events[..i]), Run(codec, limit, EMPTY, events);
            && Log(w, key) + Select(codec, key, events[i].op.entries, |events[i].op.entries|) <= Log(v, key)
            && key !in v.j.done
  {
    var w := Run(codec, limit, EMPTY, events[..i]);
    var after := Perform(codec, limit, w, events[i]);
    EmptySound(codec);
    RunSound(codec, limit, EMPTY, events[..i]);
    CompletedAddsTo(codec, limit, w, events[i], key);
    RecordedStays(codec, limit, w, events[i], key);
    PerformSound(codec, limit, w, events[i]);
    RecordedStaysInRun(codec, limit, after, events[i + 1..], key);
    assert events == events[..i] + events[i..] && events[i..][1..] == events[i + 1..];
    RunAppend(codec, limit, EMPTY, events[..i], events[i..]);
  }

  /** So loading the turn, which is not skipped as acknowledged, gives the entries of every
      completed append, once per event id, in the order of first occurrence. */
  lemma {:induction false} CompletedAppendsAreLoaded(codec: Codec, limit: nat, events: seq<Event>, i: nat, key: Key)
    requires codec.Valid() && i < |events|
    requires var w := Run(codec, limit, EMPTY, events[..i]);
             Completes(codec, limit, w.j, events[i]) && key !in w.j.done
    requires forall k :: i < k < |events| ==> !Names(codec, events[k].op, key)
    ensures var before, v := Run(codec, limit, EMPTY, events[..i]), Run(codec, limit, EMPTY, events);
            var recorded := Log(before, key) + Select(codec, key, events[i].op.entries, |events[i].op.entries|);
            var lines := WholeLines(Content(v.j.pending, key));
            var loaded := Entries(Replayed(codec, key, lines, |lines|));
            && FirstOnly(recorded, |recorded|) <= loaded
            && (forall e <- recorded :: Once(loaded, e.eventId))
            && (v.j.loaded ==> key !in AckKeys(v.j.acks))
  {
    CompletedAppendsStay(codec, limit, events, i, key);
    LoadYieldsTheLog(codec, limit, events, key);
    EmptySound(codec);
    RunSound(codec, limit, EMPTY, events);
    var before, v := Run(codec, limit, EMPTY, events[..i]), Run(codec, limit, EMPTY, events);
    var recorded := Log(before, key) + Select(codec, key, events[i].op.entries, |events[i].op.entries|);
    var log := Log(v, key);
    FirstOnlyGrows(recorded, log);
    forall e | e in recorded ensures Once(FirstOnly(log, |log|), e.eventId) {
      var k :| 0 <= k < |recorded| && recorded[k] == e;
      assert log[k] == e;
      FirstOnlyOnce(log, |log|, k);
    }
  }

  /** In particular every completed append of a turn that no operation acknowledges or removes. */
  lemma {:induction false} EveryCompletedAppendIsLoaded(codec: Codec, limit: nat, events: seq<Event>, i: nat, key: Key)
    requires codec.Valid() && i < |events|
    requires Completes(codec, limit, Run(codec, limit, EMPTY, events[..i]).j, events[i])
    requires forall k :: 0 <= k < |events| ==> !Names(codec, events[k].op, key)
    ensures var v := Run(codec, limit, EMPTY, events);
            var lines := WholeLines(Content(v.j.pending, key));
            forall e <- Select(codec, key, events[i].op.entries, |events[i].op.entries|) ::
              Once(Entries(Replayed(codec, key, lines, |lines|)), e.eventId)
  {
    EmptySound(codec);
    RecordedStaysInRun(codec, limit, EMPTY, events[..i], key);
    CompletedAppendsAreLoaded(codec, limit, events, i, key);
    var before := Log(Run(codec, limit, EMPTY, events[..i]), key);
    var added := Select(codec, key, events[i].op.entries, |events[i].op.entries|);
    assert forall e <- added :: e in before + added;
  }

  // ---------------------------------------------------------------- nothing else is loaded

  /** What the plan appends comes from these entries. */
  predicate WritesOnly(plan: seq<Action>, entries: seq<Entry>) {
    forall i :: 0 <= i < |plan| && plan[i].AppendText? ==> From(plan[i].group, entries)
  }

  predicate From(g: Group, entries: seq<Entry>) { forall e <- g.entries :: e in entries }

  lemma {:induction false} GroupedFrom(codec: Codec, acked: set<Key>, entries: seq<Entry>, n: nat)
    requires n <= |entries|
    ensures forall g <- Grouped(codec, acked, entries, n) :: From(g, entries)
  {
    if n > 0 {
      GroupedFrom(codec, acked, entries, n - 1);
      AddToFrom(Grouped(codec, acked, entries, n - 1), codec.KeyOf(entries[n - 1]), entries[n - 1], entries);
    }
  }

  lemma {:induction false} AddToFrom(groups: seq<Group>, key: Key, e: Entry, entries: seq<Entry>)
    requires (forall g <- groups :: From(g, entries)) && e in entries
    ensures forall g <- AddTo(groups, key, e) :: From(g, entries)
  {
    var i := IndexOf(groups, key);
    if i < |groups| {
      assert From(groups[i], entries);
      var more := Group(key, groups[i].entries + [e]);
      forall g | g in groups[i := more] ensures From(g, entries) { assert g in groups || g == more; }
    }
  }

  lemma {:induction false} AppendWritesOnly(codec: Codec, j: Journal, groups: seq<Group>, i: nat, entries: seq<Entry>)
    requires i <= |groups| && forall g <- groups :: From(g, entries)
    ensures WritesOnly(AppendPlan(codec, j, groups, i), entries)
    decreases |groups| - i
  {
    if i < |groups| {
      assert From(groups[i], entries);
      AppendWritesOnly(codec, Acts(codec, j, GroupPlan(j, groups[i])), groups, i + 1, entries);
    }
  }

  lemma {:induction false} AckWritesNothing(codec: Codec, j: Journal, keys: seq<Key>, stamps: Key -> Stamp, i: nat)
    requires i <= |keys|
    ensures WritesNothing(AckPlan(codec, j, keys, stamps, i))
    decreases |keys| - i
  {
    if i < |keys| {
      AckWritesNothing(codec, Acts(codec, j, KeyPlan(j, keys[i], stamps(keys[i]))), keys, stamps, i + 1);
    }
  }

  function Given(op: Op): seq<Entry> { if op.Append? then op.entries else [] }

  lemma {:induction false} PlanWritesOnly(codec: Codec, limit: nat, j: Journal, op: Op)
    ensures WritesOnly(PlanOf(codec, limit, j, op), Given(op))
  {
    if !op.Remove? {
      LoadWritesNothing(codec, limit, j, op.order);
      var v := AfterLoad(codec, limit, j, op.order);
      match op
      case Append(_, entries) =>
        GroupedFrom(codec, AckKeys(v.acks), entries, |entries|);
        AppendWritesOnly(codec, v, Grouped(codec, AckKeys(v.acks), entries, |entries|), 0, entries);
      case Acknowledge(_, entries, stamps) =>
        var keys := KeysOf(codec, entries, |entries|);
        AckWritesNothing(codec, v, keys, stamps, 0);
        EvictionsWriteNothing(Excess(Acts(codec, v, AckPlan(codec, v, keys, stamps, 0)).acks, limit), 0);
      case _ =>
    }
  }

  lemma {:induction false} StepsWriteOnly(codec: Codec, w: World, plan: seq<Action>, entries: seq<Entry>, key: Key)
    requires WritesOnly(plan, entries)
    ensures forall e <- Log(Steps(codec, w, plan), key) :: e in Log(w, key) || e in entries
    decreases |plan|
  {
    if plan != [] {
      assert plan[0].AppendText? ==> From(plan[0].group, entries);
      assert forall e <- Log(Step(codec, w, plan[0]), key) :: e in Log(w, key) || e in entries;
      StepsWriteOnly(codec, Step(codec, w, plan[0]), plan[1..], entries, key);
    }
  }

  lemma {:induction false} PerformWritesOnly(codec: Codec, limit: nat, w: World, e: Event, key: Key)
    ensures forall x <- Log(Perform(codec, limit, w, e), key) :: x in Log(w, key) || x in Given(e.op)
  {
    if MayRun(w.j, e.op) {
      var plan := PlanOf(codec, limit, w.j, e.op);
      var ran := if e.ran < |plan| then e.ran else |plan|;
      PlanWritesOnly(codec, limit, w.j, e.op);
      StepsWriteOnly(codec, w, plan[..ran], Given(e.op), key);
      if ran < |plan| && plan[ran].AppendText? { assert From(plan[ran].group, Given(e.op)); }
    }
  }

  predicate Appended(events: seq<Event>, x: Entry) {
    exists k :: 0 <= k < |events| && x in Given(events[k].op)
  }

  /** Every entry on record was given to an append. */
  lemma {:induction false} RecordedWasAppended(codec: Codec, limit: nat, w: World, events: seq<Event>, key: Key)
    ensures forall x <- Log(Run(codec, limit, w, events), key) :: x in Log(w, key) || Appended(events, x)
    decreases |events|
  {
    if events != [] {
      PerformWritesOnly(codec, limit, w, events[0], key);
      RecordedWasAppended(codec, limit, Perform(codec, limit, w, events[0]), events[1..], key);
      forall x | Appended(events[1..], x) ensures Appended(events, x) {
        var k :| 0 <= k < |events| - 1 && x in Given(events[1..][k].op);
        assert x in Given(events[k + 1].op);
      }
    }
  }

  lemma {:induction false} FirstOnlyFrom(es: seq<Entry>, n: nat)
    requires n <= |es|
    ensures forall e <- FirstOnly(es, n) :: e in es
  {
    if n > 0 { FirstOnlyFrom(es, n - 1); }
  }

  /** And a load makes nothing up: each entry it gives was given to an append of that turn. */
  lemma {:induction false} LoadedWasAppended(codec: Codec, limit: nat, events: seq<Event>, key: Key)
    requires codec.Valid()
    ensures var v := Run(codec, limit, EMPTY, events);
            var lines := WholeLines(Content(v.j.pending, key));
            forall e <- Entries(Replayed(codec, key, lines, |lines|)) :: Belongs(codec, key, e) && Appended(events, e)
  {
    var v := Run(codec, limit, EMPTY, events);
    LoadYieldsTheLog(codec, limit, events, key);
    EmptySound(codec);
    RunSound(codec, limit, EMPTY, events);
    assert Faithful(codec, v, key);
    RecordedWasAppended(codec, limit, EMPTY, events, key);
    FirstOnlyFrom(Log(v, key), |Log(v, key)|);
  }

  // ---------------------------------------------------------------- what an acknowledgement acknowledges

  /** Some entry is of this turn. */
  predicate Concerns(codec: Codec, entries: seq<Entry>, n: nat, key: Key)
    requires n <= |entries|
  {
    exists i :: 0 <= i < n && Belongs(codec, key, entries[i])
  }

  lemma {:induction false} ConcernsStep(codec: Codec, entries: seq<Entry>, n: nat, key: Key)
    requires 0 < n <= |entries|
    ensures Concerns(codec, entries, n, key)
       <==> Concerns(codec, entries, n - 1, key) || Belongs(codec, key, entries[n - 1])
  {
    if Concerns(codec, entries, n - 1, key) {
      var i :| 0 <= i < n - 1 && Belongs(codec, key, entries[i]);
      assert Belongs(codec, key, entries[i]);
    }
  }

  /** The turns of the entries, each once. */
  lemma {:induction false} KeysAreTheTurns(codec: Codec, entries: seq<Entry>, n: nat)
    requires n <= |entries|
    ensures var keys := KeysOf(codec, entries, n);
            && (forall key :: key in keys <==> Concerns(codec, entries, n, key))
            && forall a, b :: 0 <= a < b < |keys| ==> keys[a] != keys[b]
  {
    if n > 0 {
      KeysAreTheTurns(codec, entries, n - 1);
      forall key ensures key in KeysOf(codec, entries, n) <==> Concerns(codec, entries, n, key) {
        ConcernsStep(codec, entries, n, key);
      }
    }
  }

  /** Entry `i` is of turn `a`, and up to it none is of turn `b`. */
  predicate FirstOfTwo(codec: Codec, entries: seq<Entry>, i: nat, a: Key, b: Key)
    requires i < |entries|
  {
    Belongs(codec, a, entries[i]) && forall k :: 0 <= k <= i ==> !Belongs(codec, b, entries[k])
  }

  predicate ComesUpBefore(codec: Codec, entries: seq<Entry>, n: nat, a: Key, b: Key)
    requires n <= |entries|
  {
    exists i :: 0 <= i < n && FirstOfTwo(codec, entries, i, a, b)
  }

  /** They come in the order in which the turns first come up. */
  lemma {:induction false} KeysAreInOrder(codec: Codec, entries: seq<Entry>, n: nat, a: nat, b: nat)
    requires n <= |entries| && a < b < |KeysOf(codec, entries, n)|
    ensures ComesUpBefore(codec, entries, n, KeysOf(codec, entries, n)[a], KeysOf(codec, entries, n)[b])
  {
    KeysAreTheTurns(codec, entries, n - 1);
    var before, keys := KeysOf(codec, entries, n - 1), KeysOf(codec, entries, n);
    if b < |before| {
      KeysAreInOrder(codec, entries, n - 1, a, b);
      var i :| 0 <= i < n - 1 && FirstOfTwo(codec, entries, i, before[a], before[b]);
      assert FirstOfTwo(codec, entries, i, keys[a], keys[b]);
    } else {
      assert before[a] in before && Concerns(codec, entries, n - 1, before[a]);
      var i :| 0 <= i < n - 1 && Belongs(codec, before[a], entries[i]);
      assert keys[b] !in before && !Concerns(codec, entries, n - 1, keys[b]);
      assert FirstOfTwo(codec, entries, i, keys[a], keys[b]);
    }
  }

  /** Done file and acknowledgement are there, the pending file is not. */
  predicate IsAcknowledged(j: Journal, key: Key) {
    key in j.done && key in AckKeys(j.acks) && key !in j.pending
  }

  lemma {:induction false} KeyPlanAcknowledges(codec: Codec, j: Journal, key: Key, stamp: Stamp, other: Key)
    requires j.loaded && Loaded(j)
    ensures var v := Acts(codec, j, KeyPlan(j, key, stamp));
            IsAcknowledged(v, key) && (IsAcknowledged(j, other) ==> IsAcknowledged(v, other))
  {
    if key in AckKeys(j.acks) {
      assert KeyPlan(j, key, stamp) == [DropPending(key)];
      ActsOne(codec, j, DropPending(key));
    } else {
      assert KeyPlan(j, key, stamp) == [PutDone(key, stamp), DropPending(key)] + [];
      ActsTwo(codec, j, PutDone(key, stamp), DropPending(key), []);
      SnocKeys(j.acks, Ack(key, stamp.now));
    }
  }

  lemma {:induction false} AckPlanAcknowledges(codec: Codec, j: Journal, keys: seq<Key>, stamps: Key -> Stamp, i: nat,
        key: Key)
    requires j.loaded && Loaded(j) && i <= |keys|
    requires key in keys[i..] || IsAcknowledged(j, key)
    ensures IsAcknowledged(Acts(codec, j, AckPlan(codec, j, keys, stamps, i)), key)
    decreases |keys| - i
  {
    if i < |keys| {
      var p := KeyPlan(j, keys[i], stamps(keys[i]));
      KeyPlanAcknowledges(codec, j, keys[i], stamps(keys[i]), key);
      if keys[i] in AckKeys(j.acks) {
        assert p == [DropPending(keys[i])];
        PlanOne(codec, j, DropPending(keys[i]));
      } else {
        assert p == [PutDone(keys[i], stamps(keys[i])), DropPending(keys[i])];
        PlanTwo(codec, j, p[0], p[1]);
      }
      LoadedAfter(codec, j, p);
      assert keys[i..] == [keys[i]] + keys[i + 1..];
      AckPlanAcknowledges(codec, Acts(codec, j, p), keys, stamps, i + 1, key);
      ActsAppend(codec, j, p, AckPlan(codec, Acts(codec, j, p), keys, stamps, i + 1));
    }
  }

  lemma {:induction false} TrimDropsPending(codec: Codec, j: Journal, acks: seq<Ack>, i: nat)
    requires i <= |acks|
    ensures Acts(codec, j, Evictions(acks, i)).pending.Keys <= j.pending.Keys
    decreases |acks| - i
  {
    if i < |acks| {
      var key := acks[i].key;
      ActsTwo(codec, j, DropPending(key), DropDone(key), Evictions(acks, i + 1));
      TrimDropsPending(codec, Act(codec, Act(codec, j, DropPending(key)), DropDone(key)), acks, i + 1);
    }
  }

  /** A completed acknowledgement: before the trim every turn that an entry is of has its done file
      and its acknowledgement and no pending file; the trim takes only the oldest acknowledgements
      away, and brings no pending file back. */
  lemma {:induction false} EveryTurnIsAcknowledged(codec: Codec, limit: nat, j: Journal, order: seq<Key>,
        entries: seq<Entry>, stamps: Key -> Stamp, key: Key)
    requires Loaded(j) && Lists(order, j.done) && Concerns(codec, entries, |entries|, key)
    ensures var v := AfterLoad(codec, limit, j, order);
            var before := Acts(codec, v, AckPlan(codec, v, KeysOf(codec, entries, |entries|), stamps, 0));
            var after := Acts(codec, j, PlanOf(codec, limit, j, Acknowledge(order, entries, stamps)));
            && IsAcknowledged(before, key)
            && key !in after.pending
            && (key in after.done <==> key !in AckKeys(Excess(before.acks, limit)))
  {
    var v, keys := AfterLoad(codec, limit, j, order), KeysOf(codec, entries, |entries|);
    var p := AckPlan(codec, v, keys, stamps, 0);
    LoadOk(codec, limit, j, order);
    KeysAreTheTurns(codec, entries, |entries|);
    assert key in keys && keys[0..] == keys;
    AckPlanAcknowledges(codec, v, keys, stamps, 0, key);
    ActsAppend(codec, j, LoadPlan(codec, limit, j, order), AckRest(codec, limit, v, keys, stamps));
    ActsAppend(codec, v, p, TrimPlan(Acts(codec, v, p), limit));
    var excess := Excess(Acts(codec, v, p).acks, limit);
    TrimDropsPending(codec, Acts(codec, v, p), excess, 0);
    EvictionsDrop(codec, Acts(codec, v, p), excess, 0);
    assert excess[0..] == excess;
  }

  /** The event is an acknowledgement that got to the end of its plan. */
  predicate Acknowledges(codec: Codec, limit: nat, j: Journal, e: Event, key: Key) {
    && e.op.Acknowledge? && MayRun(j, e.op) && |PlanOf(codec, limit, j, e.op)| <= e.ran
    && Concerns(codec, e.op.entries, |e.op.entries|, key)
  }

  /** The pending file, if there is one, was created at `now` or later. */
  predicate BornSince(w: World, key: Key, now: nat) {
    now <= w.now && (key in w.j.pending ==> key in w.born && now <= w.born[key])
  }

  lemma {:induction false} BornSinceSteps(codec: Codec, w: World, plan: seq<Action>, key: Key, now: nat)
    requires BornSince(w, key, now)
    ensures BornSince(Steps(codec, w, plan), key, now)
    decreases |plan|
  {
    if plan != [] {
      BornSinceStep(codec, w, plan[0], key, now);
      BornSinceSteps(codec, Step(codec, w, plan[0]), plan[1..], key, now);
    }
  }

  lemma {:induction false} BornSinceStep(codec: Codec, w: World, a: Action, key: Key, now: nat)
    requires BornSince(w, key, now)
    ensures BornSince(Step(codec, w, a), key, now)
  {
  }

  lemma {:induction false} BornSinceRun(codec: Codec, limit: nat, w: World, events: seq<Event>, key: Key, now: nat)
    requires BornSince(w, key, now)
    ensures BornSince(Run(codec, limit, w, events), key, now)
    decreases |events|
  {
    if events != [] {
      if MayRun(w.j, events[0].op) {
        var plan := PlanOf(codec, limit, w.j, events[0].op);
        var ran := if events[0].ran < |plan| then events[0].ran else |plan|;
        BornSinceSteps(codec, w, plan[..ran], key, now);
      }
      BornSinceRun(codec, limit, Perform(codec, limit, w, events[0]), events[1..], key, now);
    }
  }

  /** In every run, crashes included: once an acknowledgement of entries has completed, nothing
      written before of any turn those entries are of is ever there again to be loaded. */
  lemma {:induction false} AcknowledgedNeverComesBack(codec: Codec, limit: nat, events: seq<Event>, i: nat, key: Key)
    requires codec.Valid() && i < |events|
    requires Acknowledges(codec, limit, Run(codec, limit, EMPTY, events[..i]).j, events[i], key)
    ensures var after, v := Run(codec, limit, EMPTY, events[..i + 1]), Run(codec, limit, EMPTY, events);
            key !in after.j.pending && BornSince(v, key, after.now)
  {
    var w := Run(codec, limit, EMPTY, events[..i]);
    var e := events[i];
    EmptySound(codec);
    RunSound(codec, limit, EMPTY, events[..i]);
    EveryTurnIsAcknowledged(codec, limit, w.j, e.op.order, e.op.entries, e.op.stamps, key);
    var plan := PlanOf(codec, limit, w.j, e.op);
    assert plan[..|plan|] == plan && e.op == Acknowledge(e.op.order, e.op.entries, e.op.stamps);
    StepsAct(codec, w, plan);
    var after := Perform(codec, limit, w, e);
    assert key !in after.j.pending;
    assert events[..i + 1] == events[..i] + [e] && [e][1..] == [];
    RunAppend(codec, limit, EMPTY, events[..i], [e]);
    assert Run(codec, limit, w, [e]) == Run(codec, limit, after, []);
    assert events == events[..i + 1] + events[i + 1..];
    RunAppend(codec, limit, EMPTY, events[..i + 1], events[i + 1..]);
    BornSinceRun(codec, limit, after, events[i + 1..], key, after.now);
  }

  /** Loading gives every done file its own time, by which the oldest are told. */
  lemma {:induction false} LoadedTimesAreTheFiles(codec: Codec, j: Journal, order: seq<Key>)
    requires Lists(order, j.done)
    ensures var acks := Act(codec, j, LoadAcks(order)).acks;
            && |acks| == |order|
            && forall i :: 0 <= i < |acks| ==> acks[i].key in j.done && acks[i].time == j.done[acks[i].key]
  {
    ListedTimes(j.done, order, |order|);
  }

  lemma {:induction false} ListedTimes(done: map<Key, nat>, order: seq<Key>, n: nat)
    requires n <= |order| && forall i :: 0 <= i < |order| ==> order[i] in done
    ensures forall i :: 0 <= i < n ==> Listed(done, order, n)[i] == Ack(order[i], done[order[i]])
  {
    if n > 0 { ListedTimes(done, order, n - 1); }
  }

  /** A turn whose pending file is gone is looked after anew: its next append begins with the repair. */
  lemma {:induction false} RepairedAnew(codec: Codec, j: Journal, g: Group)
    ensures GroupPlan(Act(codec, j, DropPending(g.key)), g) == [Truncate(g.key), AppendText(g)]
  {
  }
}
