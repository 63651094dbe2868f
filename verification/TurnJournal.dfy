/** The journal of Codex turns: pending turns in one file each, and bounded acknowledgements.

    An operation is a plan of actions. Each action is one change on disk and the change in memory
    that follows it, so that a crash or an error can be put between any two of them. The class
    runs whole operations; `Act` and the plans say what they do. The files are two maps. */
module TurnJournal {
  import opened Wrappers
  import opened Seqs
  import opened JournalText

  /** An acknowledged turn and when, as memory has it. */
  datatype Ack = Ack(key: Key, time: nat)

  /** `pending` and `done` are on disk, with the done files' modification times. */
  datatype Journal = Journal(
    pending: map<Key, string>,
    done: map<Key, nat>,
    initialized: set<Key>,
    acks: seq<Ack>,
    loaded: bool)

  datatype Group = Group(key: Key, entries: seq<Entry>)

  /** The modification time of a done file, and the time noted after it is in place. */
  datatype Stamp = Stamp(mtime: nat, now: nat)

  datatype Action =
    | LoadAcks(order: seq<Key>)
    | Truncate(key: Key)
    | AppendText(group: Group)
    | PutDone(key: Key, stamp: Stamp)
    | DropPending(key: Key)
    | DropDone(key: Key)

  function Content(pending: map<Key, string>, key: Key): string {
    if key in pending then pending[key] else ""
  }

  function Time(done: map<Key, nat>, key: Key): nat { if key in done then done[key] else 0 }

  function AckKeys(acks: seq<Ack>): set<Key> { set i | 0 <= i < |acks| :: acks[i].key }

  function Without(acks: seq<Ack>, key: Key): seq<Ack> {
    if acks == [] then []
    else (if acks[0].key == key then [] else [acks[0]]) + Without(acks[1..], key)
  }

  /** The acknowledgements that the first `n` listed done files stand for. */
  function Listed(done: map<Key, nat>, order: seq<Key>, n: nat): (acks: seq<Ack>)
    requires n <= |order|
    ensures |acks| == n
    ensures forall i :: 0 <= i < n ==> acks[i].key == order[i]
  {
    if n == 0 then [] else Listed(done, order, n - 1) + [Ack(order[n - 1], Time(done, order[n - 1]))]
  }

  function Act(codec: Codec, j: Journal, a: Action): Journal {
    match a
    case LoadAcks(order) => j.(acks := Listed(j.done, order, |order|), loaded := true)
    case Truncate(key) =>
      var text := Content(j.pending, key);
      j.(pending := if key in j.pending then j.pending[key := text[..Complete(text)]] else j.pending,
         initialized := j.initialized + {key})
    case AppendText(g) => j.(pending := j.pending[g.key := Content(j.pending, g.key) + Text(codec, g.entries)])
    case PutDone(key, stamp) => j.(done := j.done[key := stamp.mtime], acks := j.acks + [Ack(key, stamp.now)])
    case DropPending(key) => j.(pending := j.pending - {key}, initialized := j.initialized - {key})
    case DropDone(key) => j.(done := j.done - {key}, acks := Without(j.acks, key))
  }

  function Acts(codec: Codec, j: Journal, plan: seq<Action>): Journal
    decreases |plan|
  {
    if plan == [] then j else Acts(codec, Act(codec, j, plan[0]), plan[1..])
  }

  lemma {:induction false} ActsAppend(codec: Codec, j: Journal, p: seq<Action>, q: seq<Action>)
    ensures Acts(codec, j, p + q) == Acts(codec, Acts(codec, j, p), q)
    decreases |p|
  {
    if p == [] {
      assert p + q == q;
    } else {
      assert (p + q)[1..] == p[1..] + q;
      ActsAppend(codec, Act(codec, j, p[0]), p[1..], q);
    }
  }

  lemma {:induction false} ActsOne(codec: Codec, j: Journal, a: Action)
    ensures Acts(codec, j, [a]) == Act(codec, j, a)
  {
    assert [a][1..] == [];
  }

  // ---------------------------------------------------------------- entries to groups and keys

  function IndexOf(groups: seq<Group>, key: Key): (i: nat)
    ensures i <= |groups| && (i < |groups| ==> groups[i].key == key)
    ensures forall k :: 0 <= k < i ==> groups[k].key != key
  {
    if groups == [] || groups[0].key == key then 0 else 1 + IndexOf(groups[1..], key)
  }

  function AddTo(groups: seq<Group>, key: Key, e: Entry): seq<Group> {
    var i := IndexOf(groups, key);
    if i < |groups| then groups[i := Group(key, groups[i].entries + [e])] else groups + [Group(key, [e])]
  }

  /** The first `n` entries grouped by turn, without the acknowledged turns. */
  function Grouped(codec: Codec, acked: set<Key>, entries: seq<Entry>, n: nat): seq<Group>
    requires n <= |entries|
  {
    if n == 0 then []
    else
      var groups := Grouped(codec, acked, entries, n - 1);
      var e := entries[n - 1];
      if IsJournaled(e) && codec.KeyOf(e) !in acked then AddTo(groups, codec.KeyOf(e), e) else groups
  }

  /** The distinct turns of the first `n` entries. */
  function KeysOf(codec: Codec, entries: seq<Entry>, n: nat): seq<Key>
    requires n <= |entries|
  {
    if n == 0 then []
    else
      var keys := KeysOf(codec, entries, n - 1);
      var e := entries[n - 1];
      if IsJournaled(e) && codec.KeyOf(e) !in keys then keys + [codec.KeyOf(e)] else keys
  }

  // ---------------------------------------------------------------- plans

  function GroupPlan(j: Journal, g: Group): seq<Action> {
    (if g.key in j.initialized then [] else [Truncate(g.key)]) + [AppendText(g)]
  }

  function AppendPlan(codec: Codec, j: Journal, groups: seq<Group>, i: nat): seq<Action>
    requires i <= |groups|
    decreases |groups| - i
  {
    if i == |groups| then []
    else
      var p := GroupPlan(j, groups[i]);
      p + AppendPlan(codec, Acts(codec, j, p), groups, i + 1)
  }

  function KeyPlan(j: Journal, key: Key, stamp: Stamp): seq<Action> {
    (if key in AckKeys(j.acks) then [] else [PutDone(key, stamp)]) + [DropPending(key)]
  }

  function AckPlan(codec: Codec, j: Journal, keys: seq<Key>, stamps: Key -> Stamp, i: nat): seq<Action>
    requires i <= |keys|
    decreases |keys| - i
  {
    if i == |keys| then []
    else
      var p := KeyPlan(j, keys[i], stamps(keys[i]));
      p + AckPlan(codec, Acts(codec, j, p), keys, stamps, i + 1)
  }

  function Insert(a: Ack, acks: seq<Ack>): seq<Ack> {
    if acks == [] || a.time <= acks[0].time then [a] + acks else [acks[0]] + Insert(a, acks[1..])
  }

  /** `sort((a, b) => a[1] - b[1])`: by time, equal times in their order. */
  function SortByTime(acks: seq<Ack>): seq<Ack> {
    if acks == [] then [] else Insert(acks[0], SortByTime(acks[1..]))
  }

  lemma {:induction false} SortLength(acks: seq<Ack>)
    ensures |SortByTime(acks)| == |acks|
  {
    if acks != [] {
      SortLength(acks[1..]);
      InsertLength(acks[0], SortByTime(acks[1..]));
    }
  }

  lemma {:induction false} InsertLength(a: Ack, acks: seq<Ack>)
    ensures |Insert(a, acks)| == |acks| + 1
  {
    if acks != [] && a.time > acks[0].time { InsertLength(a, acks[1..]); }
  }

  /** The acknowledgements beyond the limit, oldest first. */
  function Excess(acks: seq<Ack>, limit: nat): seq<Ack> {
    SortLength(acks);
    if |acks| <= limit then [] else SortByTime(acks)[..|acks| - limit]
  }

  function Evictions(acks: seq<Ack>, i: nat): seq<Action>
    requires i <= |acks|
    decreases |acks| - i
  {
    if i == |acks| then [] else [DropPending(acks[i].key), DropDone(acks[i].key)] + Evictions(acks, i + 1)
  }

  function TrimPlan(j: Journal, limit: nat): seq<Action> { Evictions(Excess(j.acks, limit), 0) }

  function LoadPlan(codec: Codec, limit: nat, j: Journal, order: seq<Key>): seq<Action> {
    if j.loaded then [] else [LoadAcks(order)] + TrimPlan(Act(codec, j, LoadAcks(order)), limit)
  }

  function DropPlan(keys: seq<Key>): seq<Action> { Map(k => DropPending(k), keys) }

  /** `order` is the order in which the directory lists the done files. */
  datatype Op =
    | Load(order: seq<Key>)
    | Append(order: seq<Key>, entries: seq<Entry>)
    | Acknowledge(order: seq<Key>, entries: seq<Entry>, stamps: Key -> Stamp)
    | Remove(keys: seq<Key>)

  predicate Lists(order: seq<Key>, done: map<Key, nat>) {
    && (forall i, k :: 0 <= i < k < |order| ==> order[i] != order[k])
    && (forall i :: 0 <= i < |order| ==> order[i] in done)
    && (forall k <- done :: k in order)
  }

  function AfterLoad(codec: Codec, limit: nat, j: Journal, order: seq<Key>): Journal {
    Acts(codec, j, LoadPlan(codec, limit, j, order))
  }

  function AckRest(codec: Codec, limit: nat, j: Journal, keys: seq<Key>, stamps: Key -> Stamp): seq<Action> {
    if keys == [] then []
    else
      var p := AckPlan(codec, j, keys, stamps, 0);
      p + TrimPlan(Acts(codec, j, p), limit)
  }

  function PlanOf(codec: Codec, limit: nat, j: Journal, op: Op): seq<Action> {
    match op
    case Load(order) => LoadPlan(codec, limit, j, order)
    case Append(order, entries) =>
      var v := AfterLoad(codec, limit, j, order);
      LoadPlan(codec, limit, j, order)
        + AppendPlan(codec, v, Grouped(codec, AckKeys(v.acks), entries, |entries|), 0)
    case Acknowledge(order, entries, stamps) =>
      var v := AfterLoad(codec, limit, j, order);
      LoadPlan(codec, limit, j, order) + AckRest(codec, limit, v, KeysOf(codec, entries, |entries|), stamps)
    case Remove(keys) => DropPlan(keys)
  }

  // ---------------------------------------------------------------- the object

  class CodexTurnJournal {
    const codec: Codec
    const limit: nat
    var pending: map<Key, string>
    var done: map<Key, nat>
    var initialized: set<Key>
    var acks: seq<Ack>
    var loaded: bool

    ghost function Value(): Journal
      reads this
    {
      Journal(pending, done, initialized, acks, loaded)
    }

    constructor (codec: Codec, limit: nat, pending: map<Key, string>, done: map<Key, nat>)
      requires limit >= 1
      ensures this.codec == codec && this.limit == limit
      ensures Value() == Journal(pending, done, {}, [], false)
    {
      this.codec, this.limit, this.pending, this.done := codec, limit, pending, done;
      initialized, acks, loaded := {}, [], false;
    }

    method LoadAcknowledgements(order: seq<Key>)
      modifies this
      ensures Value() == AfterLoad(codec, limit, old(Value()), order)
    {
      if loaded { return; }
      var found: seq<Ack> := [];
      for i := 0 to |order|
        invariant found == Listed(done, order, i)
        invariant Value() == old(Value())
      {
        found := found + [Ack(order[i], Time(done, order[i]))];
      }
      acks, loaded := found, true;
      ghost var read := Value();
      TrimAcknowledgements();
      ActsAppend(codec, old(Value()), [LoadAcks(order)], TrimPlan(read, limit));
      ActsOne(codec, old(Value()), LoadAcks(order));
    }

    method TrimAcknowledgements()
      modifies this
      ensures Value() == Acts(codec, old(Value()), TrimPlan(old(Value()), limit))
    {
      if |acks| <= limit { return; }
      ghost var start := Value();
      SortLength(acks);
      var sorted := SortByTime(acks);
      var excess := sorted[..|acks| - limit];
      for i := 0 to |excess|
        invariant Acts(codec, Value(), Evictions(excess, i)) == Acts(codec, start, Evictions(excess, 0))
      {
        var key := excess[i].key;
        ActsTwo(codec, Value(), DropPending(key), DropDone(key), Evictions(excess, i + 1));
        pending := pending - {key};
        initialized := initialized - {key};
        done := done - {key};
        acks := Without(acks, key);
      }
    }

    /** Makes sure the file ends in a whole line before the first append of this process. */
    method AppendGroup(g: Group)
      modifies this`pending, this`initialized
      ensures Value() == Acts(codec, old(Value()), GroupPlan(old(Value()), g))
    {
      ghost var start := Value();
      if g.key !in initialized {
        var length := CompleteLength(if g.key in pending then Some(pending[g.key]) else None);
        if length.Some? { pending := pending[g.key := pending[g.key][..length.value]]; }
        initialized := initialized + {g.key};
        assert Value() == Act(codec, start, Truncate(g.key));
        ActsTwo(codec, start, Truncate(g.key), AppendText(g), []);
        assert GroupPlan(start, g) == [Truncate(g.key), AppendText(g)] + [];
      } else {
        assert GroupPlan(start, g) == [AppendText(g)];
        ActsOne(codec, start, AppendText(g));
      }
      pending := pending[g.key := Content(pending, g.key) + Text(codec, g.entries)];
    }

    method AppendEntries(order: seq<Key>, entries: seq<Entry>)
      modifies this
      ensures Value() == Acts(codec, old(Value()), PlanOf(codec, limit, old(Value()), Append(order, entries)))
    {
      ghost var before := Value();
      LoadAcknowledgements(order);
      ghost var start := Value();
      var acked := AckKeys(acks);
      var groups: seq<Group> := [];
      for i := 0 to |entries|
        invariant groups == Grouped(codec, acked, entries, i)
        invariant Value() == start
      {
        var e := entries[i];
        if !IsJournaled(e) || codec.KeyOf(e) in acked { continue; }
        groups := AddTo(groups, codec.KeyOf(e), e);
      }
      AppendGroups(groups);
      ActsAppend(codec, before, LoadPlan(codec, limit, before, order), AppendPlan(codec, start, groups, 0));
    }

    method AppendGroups(groups: seq<Group>)
      modifies this`pending, this`initialized
      ensures Value() == Acts(codec, old(Value()), AppendPlan(codec, old(Value()), groups, 0))
    {
      ghost var start := Value();
      for i := 0 to |groups|
        invariant Acts(codec, Value(), AppendPlan(codec, Value(), groups, i))
               == Acts(codec, start, AppendPlan(codec, start, groups, 0))
      {
        ghost var now := Value();
        AppendGroup(groups[i]);
        ActsAppend(codec, now, GroupPlan(now, groups[i]), AppendPlan(codec, Value(), groups, i + 1));
      }
    }

    method AcknowledgeEntries(order: seq<Key>, entries: seq<Entry>, stamps: Key -> Stamp)
      modifies this
      ensures Value() == Acts(codec, old(Value()), PlanOf(codec, limit, old(Value()), Acknowledge(order, entries, stamps)))
    {
      ghost var before := Value();
      LoadAcknowledgements(order);
      ghost var start := Value();
      var keys: seq<Key> := [];
      for i := 0 to |entries|
        invariant keys == KeysOf(codec, entries, i)
        invariant Value() == start
      {
        var e := entries[i];
        if IsJournaled(e) && codec.KeyOf(e) !in keys { keys := keys + [codec.KeyOf(e)]; }
      }
      AcknowledgeKeys(keys, stamps);
      ActsAppend(codec, before, LoadPlan(codec, limit, before, order), AckRest(codec, limit, start, keys, stamps));
    }

    method AcknowledgeKeys(keys: seq<Key>, stamps: Key -> Stamp)
      modifies this
      ensures Value() == Acts(codec, old(Value()), AckRest(codec, limit, old(Value()), keys, stamps))
    {
      if keys == [] { return; }
      ghost var start := Value();
      for i := 0 to |keys|
        invariant Acts(codec, Value(), AckPlan(codec, Value(), keys, stamps, i))
               == Acts(codec, start, AckPlan(codec, start, keys, stamps, 0))
      {
        ghost var now := Value();
        AcknowledgeKey(keys[i], stamps(keys[i]));
        ActsAppend(codec, now, KeyPlan(now, keys[i], stamps(keys[i])), AckPlan(codec, Value(), keys, stamps, i + 1));
      }
      ghost var acked := Value();
      TrimAcknowledgements();
      ActsAppend(codec, start, AckPlan(codec, start, keys, stamps, 0), TrimPlan(acked, limit));
    }

    /** The done file is in place before the pending content goes. */
    method AcknowledgeKey(key: Key, stamp: Stamp)
      modifies this
      ensures Value() == Acts(codec, old(Value()), KeyPlan(old(Value()), key, stamp))
    {
      ghost var start := Value();
      if key !in AckKeys(acks) {
        done := done[key := stamp.mtime];
        acks := acks + [Ack(key, stamp.now)];
        ActsTwo(codec, start, PutDone(key, stamp), DropPending(key), []);
        assert KeyPlan(start, key, stamp) == [PutDone(key, stamp), DropPending(key)] + [];
      } else {
        assert KeyPlan(start, key, stamp) == [DropPending(key)];
        ActsOne(codec, start, DropPending(key));
      }
      pending := pending - {key};
      initialized := initialized - {key};
    }

    method RemoveTurns(keys: seq<Key>)
      modifies this
      ensures Value() == Acts(codec, old(Value()), DropPlan(keys))
    {
      ghost var start := Value();
      for i := 0 to |keys|
        invariant Value() == Acts(codec, start, DropPlan(keys[..i]))
      {
        assert keys[..i + 1] == keys[..i] + [keys[i]];
        MapSnoc(k => DropPending(k), keys[..i], keys[i]);
        ActsAppend(codec, start, DropPlan(keys[..i]), [DropPending(keys[i])]);
        ActsOne(codec, Value(), DropPending(keys[i]));
        pending := pending - {keys[i]};
        initialized := initialized - {keys[i]};
      }
      assert keys[..|keys|] == keys;
    }
  }

  lemma {:induction false} ActsTwo(codec: Codec, j: Journal, a: Action, b: Action, rest: seq<Action>)
    ensures Acts(codec, j, [a, b] + rest) == Acts(codec, Act(codec, Act(codec, j, a), b), rest)
  {
    var plan := [a, b] + rest;
    assert plan[1..] == [b] + rest && plan[1..][1..] == rest;
  }
}
