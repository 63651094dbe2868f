/** The text of one pending Codex turn: entries one per line, a last line that a crash may have
    torn, the backward search for the last line break, and reading the entries back in batches.

    JSON, the group hash and the byte length of a line are abstract; JSON never writes a line break. */
module JournalText {
  import opened Wrappers
  import opened Seqs
  import opened Lines

  datatype Entry = Entry(agentType: string, user: Option<string>, session: string, turn: string, eventId: string,
                         rest: string)

  type Key = string

  datatype Codec = Codec(
    encode: Entry -> string,
    decode: string -> Option<Entry>,
    hash: (string, string, string) -> Key,
    byteLength: string -> nat)
  {
    function KeyOf(e: Entry): Key { hash(e.user.GetOr(""), e.session, e.turn) }

    ghost predicate Valid() {
      forall e: Entry :: decode(encode(e)) == Some(e) && IsLine(encode(e))
    }
  }

  const CODEX := "codex"

  predicate IsJournaled(e: Entry) {
    e.agentType == CODEX && e.user.Some? && e.session != "" && e.turn != "" && e.eventId != ""
  }

  predicate Belongs(codec: Codec, key: Key, e: Entry) { IsJournaled(e) && codec.KeyOf(e) == key }

  // ---------------------------------------------------------------- the last line break

  const CHUNK: nat := 65536

  /** One past the last line break, or 0. */
  function Complete(text: string): (n: nat)
    ensures n <= |text|
  {
    if text == "" then 0 else if text[|text| - 1] == '\n' then |text| else Complete(text[..|text| - 1])
  }

  /** `lastIndexOf(10)` on a chunk. */
  method LastBreak(chunk: string) returns (i: int)
    ensures -1 <= i < |chunk|
    ensures i >= 0 ==> chunk[i] == '\n'
    ensures forall k :: i < k < |chunk| ==> chunk[k] != '\n'
  {
    i := |chunk| - 1;
    while i >= 0 && chunk[i] != '\n'
      invariant -1 <= i < |chunk|
      invariant forall k :: i < k < |chunk| ==> chunk[k] != '\n'
    {
      i := i - 1;
    }
  }

  method CompleteLength(file: Option<string>) returns (length: Option<nat>)
    ensures length == if file.None? then None else Some(Complete(file.value))
  {
    if file.None? { return None; }
    var text := file.value;
    var end := |text|;
    while end > 0
      invariant 0 <= end <= |text|
      invariant forall k :: end <= k < |text| ==> text[k] != '\n'
    {
      var start := if end > CHUNK then end - CHUNK else 0;
      var newline := LastBreak(text[start..end]);
      if newline >= 0 {
        assert text[start..end][newline] == text[start + newline];
        forall k | start + newline < k < |text| ensures text[k] != '\n' {
          if k < end { assert text[start..end][k - start] == text[k]; }
        }
        CompleteIs(text, start + newline + 1);
        return Some(start + newline + 1);
      }
      forall k | start <= k < |text| ensures text[k] != '\n' {
        if k < end { assert text[start..end][k - start] == text[k]; }
      }
      end := start;
    }
    CompleteIs(text, 0);
    return Some(0);
  }

  /** What makes a position the end of the last whole line. */
  lemma {:induction false} CompleteIs(text: string, n: nat)
    requires n <= |text| && (n > 0 ==> text[n - 1] == '\n')
    requires forall k :: n <= k < |text| ==> text[k] != '\n'
    ensures Complete(text) == n
  {
    if n < |text| { CompleteIs(text[..|text| - 1], n); }
  }

  // ---------------------------------------------------------------- whole lines and the torn one

  /** Cutting the torn line keeps the whole ones. */
  lemma {:induction false} TruncatedLines(text: string)
    ensures WholeLines(text[..Complete(text)]) == WholeLines(text) && Tail(text[..Complete(text)]) == ""
    decreases |text|
  {
    if text != "" {
      var n := |text| - 1;
      assert text == text[..n] + [text[n]];
      SplitConcat(text[..n], [text[n]]);
      if text[n] == '\n' {
        assert text[..Complete(text)] == text;
        assert [text[n]] == "" + "\n" + "";
        SplitAppend("", "");
      } else {
        TruncatedLines(text[..n]);
        SplitLine([text[n]]);
        assert text[..n][..Complete(text)] == text[..Complete(text)];
      }
    }
  }

  /** What `append` writes for a group. */
  function Text(codec: Codec, group: seq<Entry>): string { Join(Map(codec.encode, group)) + "\n" }

  lemma {:induction false} TextLines(codec: Codec, group: seq<Entry>)
    requires codec.Valid() && group != []
    ensures WholeLines(Text(codec, group)) == Map(codec.encode, group) && Tail(Text(codec, group)) == ""
  {
    var ls := Map(codec.encode, group);
    SplitJoin(ls);
    SplitAppend(Join(ls), "");
    assert Join(ls) + "\n" + "" == Text(codec, group);
    assert Split(Text(codec, group)) == ls + [""];
  }

  // ---------------------------------------------------------------- reading entries back

  /** An entry read from a line of `bytes` bytes. */
  datatype Read = Read(entry: Entry, bytes: nat)

  predicate Seen(found: seq<Read>, id: string) { exists i :: 0 <= i < |found| && found[i].entry.eventId == id }

  predicate Accepts(codec: Codec, key: Key, line: string, found: seq<Read>) {
    match codec.decode(line)
    case None => false
    case Some(e) => Belongs(codec, key, e) && !Seen(found, e.eventId)
  }

  /** The entries that the first `n` lines yield. */
  function Replayed(codec: Codec, key: Key, lines: seq<string>, n: nat): seq<Read>
    requires n <= |lines|
  {
    if n == 0 then []
    else
      var before := Replayed(codec, key, lines, n - 1);
      if Accepts(codec, key, lines[n - 1], before)
      then before + [Read(codec.decode(lines[n - 1]).value, codec.byteLength(lines[n - 1]))]
      else before
  }

  datatype Batch = Batch(found: seq<Read>, last: bool)

  const BATCH_LIMIT: nat := 1024 * 1024

  function Total(found: seq<Read>): nat {
    if found == [] then 0 else Total(found[..|found| - 1]) + found[|found| - 1].bytes
  }

  function Flatten(batches: seq<Batch>): seq<Read> {
    if batches == [] then [] else Flatten(batches[..|batches| - 1]) + batches[|batches| - 1].found
  }

  /** A batch of several entries keeps to the limit. */
  predicate Fits(found: seq<Read>) { |found| <= 1 || Total(found) <= BATCH_LIMIT }

  /** A batch that is not the last is not empty, and the next entry would not have fitted. */
  predicate Full(batch: Batch, next: seq<Read>) {
    && !batch.last && batch.found != [] && Fits(batch.found)
    && next != [] && Total(batch.found) + next[0].bytes > BATCH_LIMIT
  }

  predicate AllFull(batches: seq<Batch>, batch: seq<Read>) {
    forall i :: 0 <= i < |batches| ==> FullAt(batches, i, batch)
  }

  predicate FullAt(batches: seq<Batch>, i: nat, batch: seq<Read>)
    requires i < |batches|
  {
    Full(batches[i], if i + 1 < |batches| then batches[i + 1].found else batch)
  }

  /** The part of `loadBatches` that streams one file. */
  method LoadFile(codec: Codec, key: Key, text: string) returns (batches: seq<Batch>)
    ensures Complete(text) == 0 ==> batches == []
    ensures Complete(text) > 0 ==>
              && batches != []
              && Flatten(batches) == Replayed(codec, key, WholeLines(text), |WholeLines(text)|)
              && batches[|batches| - 1].last && Fits(batches[|batches| - 1].found)
              && AllFull(batches[..|batches| - 1], batches[|batches| - 1].found)
  {
    var length := CompleteLength(Some(text));
    if length.value == 0 { return []; }
    TruncatedLines(text);
    var lines := Split(text[..length.value]);
    batches := ReadLines(codec, key, lines[..|lines| - 1]);
  }

  method ReadLines(codec: Codec, key: Key, lines: seq<string>) returns (batches: seq<Batch>)
    ensures batches != []
    ensures Flatten(batches) == Replayed(codec, key, lines, |lines|)
    ensures batches[|batches| - 1].last && Fits(batches[|batches| - 1].found)
    ensures AllFull(batches[..|batches| - 1], batches[|batches| - 1].found)
  {
    var seen: set<string> := {};
    var batch: seq<Read> := [];
    var bytes := 0;
    batches := [];
    ghost var found: seq<Read> := [];
    for i := 0 to |lines|
      invariant found == Replayed(codec, key, lines, i) == Flatten(batches) + batch
      invariant seen == Ids(found)
      invariant bytes == Total(batch) && Fits(batch)
      invariant batches != [] ==> batch != []
      invariant AllFull(batches, batch)
    {
      var entry := codec.decode(lines[i]);
      SeenIds(found);
      if entry.None? || !Belongs(codec, key, entry.value) || entry.value.eventId in seen { continue; }
      seen := seen + {entry.value.eventId};
      var next := Read(entry.value, codec.byteLength(lines[i]));
      batches, batch, bytes := PushEntry(batches, batch, bytes, next);
      IdsSnoc(found, next);
      found := found + [next];
    }
    batches := batches + [Batch(batch, true)];
    assert batches[..|batches| - 1] + [batches[|batches| - 1]] == batches;
  }

  /** One more entry, in the open batch or, when it would not fit, in a new one. */
  method PushEntry(batches: seq<Batch>, batch: seq<Read>, bytes: nat, next: Read)
    returns (batches': seq<Batch>, batch': seq<Read>, bytes': nat)
    requires AllFull(batches, batch) && Fits(batch) && (batches != [] ==> batch != []) && bytes == Total(batch)
    ensures Flatten(batches') + batch' == Flatten(batches) + batch + [next]
    ensures AllFull(batches', batch') && Fits(batch') && batch' != [] && bytes' == Total(batch')
  {
    batches', batch', bytes' := batches, batch, bytes;
    if batch != [] && bytes + next.bytes > BATCH_LIMIT {
      batches' := batches' + [Batch(batch, false)];
      batch', bytes' := [], 0;
    }
    Cut(batches, batch, next);
    CutFull(batches, batch, next);
    assert [] + [next] == [next];
    assert Flatten(batches) + batch + [next] == Flatten(batches) + (batch + [next]);
    batch', bytes' := batch' + [next], bytes' + next.bytes;
  }

  lemma {:induction false} Cut(batches: seq<Batch>, batch: seq<Read>, next: Read)
    ensures Total(batch + [next]) == Total(batch) + next.bytes && Total([next]) == next.bytes
    ensures Flatten(batches + [Batch(batch, false)]) == Flatten(batches) + batch
  {
    assert (batch + [next])[..|batch|] == batch;
    assert [next][..0] == [];
    assert (batches + [Batch(batch, false)])[..|batches|] == batches;
  }

  lemma {:induction false} CutFull(batches: seq<Batch>, batch: seq<Read>, next: Read)
    requires AllFull(batches, batch) && Fits(batch) && (batches != [] ==> batch != [])
    ensures AllFull(batches, batch + [next])
    ensures batch != [] && Total(batch) + next.bytes > BATCH_LIMIT ==> AllFull(batches + [Batch(batch, false)], [next])
  {
    forall i | 0 <= i < |batches| ensures FullAt(batches, i, batch + [next]) { assert FullAt(batches, i, batch); }
    if batch != [] && Total(batch) + next.bytes > BATCH_LIMIT {
      var more := batches + [Batch(batch, false)];
      forall i | 0 <= i < |more| ensures FullAt(more, i, [next]) {
        if i < |batches| { assert FullAt(batches, i, batch); }
      }
    }
  }

  function Ids(found: seq<Read>): set<string> { set i | 0 <= i < |found| :: found[i].entry.eventId }

  lemma {:induction false} SeenIds(found: seq<Read>)
    ensures forall id :: Seen(found, id) <==> id in Ids(found)
  {
  }

  lemma {:induction false} IdsSnoc(found: seq<Read>, next: Read)
    ensures Ids(found + [next]) == Ids(found) + {next.entry.eventId}
  {
    var more := found + [next];
    forall id | id in Ids(found) + {next.entry.eventId} ensures id in Ids(more) {
      if id in Ids(found) {
        var i :| 0 <= i < |found| && found[i].entry.eventId == id;
        assert more[i] == found[i];
      } else {
        assert more[|found|] == next;
      }
    }
  }

  // ---------------------------------------------------------------- once per event, first occurrence

  predicate IsFirst(es: seq<Entry>, i: nat)
    requires i < |es|
  {
    forall j :: 0 <= j < i ==> es[j].eventId != es[i].eventId
  }

  /** The entries among the first `n` with whose event id none came before. */
  function FirstOnly(es: seq<Entry>, n: nat): seq<Entry>
    requires n <= |es|
  {
    if n == 0 then [] else FirstOnly(es, n - 1) + if IsFirst(es, n - 1) then [es[n - 1]] else []
  }

  /** One entry has this event id, and only one. */
  predicate Once(es: seq<Entry>, id: string) {
    exists i :: 0 <= i < |es| && OnlyAt(es, i, id)
  }

  predicate OnlyAt(es: seq<Entry>, i: nat, id: string)
    requires i < |es|
  {
    forall k :: 0 <= k < |es| ==> (es[k].eventId == id <==> k == i)
  }

  lemma {:induction false} FirstOnlyAbsent(es: seq<Entry>, n: nat, id: string)
    requires n <= |es| && forall k :: 0 <= k < n ==> es[k].eventId != id
    ensures forall e <- FirstOnly(es, n) :: e.eventId != id
  {
    if n > 0 { FirstOnlyAbsent(es, n - 1, id); }
  }

  /** Every event id among the first `n` is there, once. */
  lemma {:induction false} FirstOnlyOnce(es: seq<Entry>, n: nat, k: nat)
    requires k < n <= |es|
    ensures Once(FirstOnly(es, n), es[k].eventId)
  {
    var before, id := FirstOnly(es, n - 1), es[k].eventId;
    var last := es[n - 1];
    if i :| 0 <= i < n - 1 && es[i].eventId == id {
      FirstOnlyOnce(es, n - 1, i);
      var at :| 0 <= at < |before| && OnlyAt(before, at, id);
      assert IsFirst(es, n - 1) ==> last.eventId != id;
      assert OnlyAt(FirstOnly(es, n), at, id);
    } else {
      FirstOnlyAbsent(es, n - 1, id);
      assert IsFirst(es, n - 1) && FirstOnly(es, n) == before + [last];
      assert OnlyAt(FirstOnly(es, n), |before|, id);
    }
  }

  lemma {:induction false} FirstOnlyPrefix(p: seq<Entry>, es: seq<Entry>, n: nat)
    requires p <= es && n <= |p|
    ensures FirstOnly(p, n) == FirstOnly(es, n)
  {
    if n > 0 {
      FirstOnlyPrefix(p, es, n - 1);
      assert IsFirst(p, n - 1) <==> IsFirst(es, n - 1) by {
        assert forall j :: 0 <= j < n ==> p[j] == es[j];
      }
    }
  }

  lemma {:induction false} FirstOnlyMore(es: seq<Entry>, n: nat, m: nat)
    requires n <= m <= |es|
    ensures FirstOnly(es, n) <= FirstOnly(es, m)
  {
    if n < m { FirstOnlyMore(es, n, m - 1); }
  }

  /** What comes later changes nothing in front. */
  lemma {:induction false} FirstOnlyGrows(p: seq<Entry>, es: seq<Entry>)
    requires p <= es
    ensures FirstOnly(p, |p|) <= FirstOnly(es, |es|)
  {
    FirstOnlyPrefix(p, es, |p|);
    FirstOnlyMore(es, |p|, |es|);
  }

  function Entries(found: seq<Read>): seq<Entry> { Map((r: Read) => r.entry, found) }

  lemma {:induction false} EntriesSnoc(found: seq<Read>, next: Read)
    ensures Entries(found + [next]) == Entries(found) + [next.entry]
  {
  }

  /** The event ids read so far are those written so far. */
  predicate SameIds(es: seq<Entry>, n: nat, found: seq<Read>)
    requires n <= |es|
  {
    && (forall i :: 0 <= i < n ==> Seen(found, es[i].eventId))
    && (forall k :: 0 <= k < |found| ==> exists i :: 0 <= i < n && es[i].eventId == found[k].entry.eventId)
  }

  lemma {:induction false} SameIdsStep(es: seq<Entry>, n: nat, found: seq<Read>, bytes: nat)
    requires 0 < n <= |es| && SameIds(es, n - 1, found)
    ensures IsFirst(es, n - 1) <==> !Seen(found, es[n - 1].eventId)
    ensures IsFirst(es, n - 1) ==> SameIds(es, n, found + [Read(es[n - 1], bytes)])
    ensures !IsFirst(es, n - 1) ==> SameIds(es, n, found)
  {
    var more := found + [Read(es[n - 1], bytes)];
    assert more[|found|].entry == es[n - 1];
    forall i | 0 <= i < n - 1 ensures Seen(more, es[i].eventId) {
      assert Seen(found, es[i].eventId);
      var k :| 0 <= k < |found| && found[k].entry.eventId == es[i].eventId;
      assert more[k] == found[k];
    }
    forall k | 0 <= k < |more| ensures exists i :: 0 <= i < n && es[i].eventId == more[k].entry.eventId {
      if k < |found| {
        assert more[k] == found[k];
        var i :| 0 <= i < n - 1 && es[i].eventId == found[k].entry.eventId;
        assert es[i].eventId == more[k].entry.eventId;
      } else {
        assert es[n - 1].eventId == more[k].entry.eventId;
      }
    }
  }

  predicate Yields(codec: Codec, key: Key, line: string, e: Entry) {
    codec.decode(line) == Some(e) && Belongs(codec, key, e)
  }

  lemma {:induction false} ReplayOfLines(codec: Codec, key: Key, lines: seq<string>, es: seq<Entry>, n: nat)
    requires |lines| == |es| && n <= |es| && forall i :: 0 <= i < |es| ==> Yields(codec, key, lines[i], es[i])
    ensures Entries(Replayed(codec, key, lines, n)) == FirstOnly(es, n)
    ensures SameIds(es, n, Replayed(codec, key, lines, n))
  {
    if n > 0 {
      ReplayOfLines(codec, key, lines, es, n - 1);
      var before := Replayed(codec, key, lines, n - 1);
      var bytes := codec.byteLength(lines[n - 1]);
      assert Yields(codec, key, lines[n - 1], es[n - 1]);
      SameIdsStep(es, n, before, bytes);
      EntriesSnoc(before, Read(es[n - 1], bytes));
    }
  }

  /** Reading back what was written yields each event once, in the order of first occurrence. */
  lemma {:induction false} ReplayIsFirstOnly(codec: Codec, key: Key, es: seq<Entry>)
    requires codec.Valid() && forall i :: 0 <= i < |es| ==> Belongs(codec, key, es[i])
    ensures Entries(Replayed(codec, key, Map(codec.encode, es), |es|)) == FirstOnly(es, |es|)
  {
    ReplayOfLines(codec, key, Map(codec.encode, es), es, |es|);
  }
}
