/** What the time line of `RoundTimes` is evidence of: which tool intervals count as observed, which
    of them a round has, and when they admit an estimate. */
module RoundEvidence {
  import opened Wrappers
  import opened Seqs
  import opened RoundTimes

  // ---------------------------------------------------------------- which intervals are observed

  /** Record `i` is an `event` of this call. */
  predicate IsEvent(records: seq<Record>, event: string, callId: string, i: nat)
    requires i < |records|
  {
    records[i].event == event && records[i].callId == Some(callId)
  }

  predicate OnlyEvent(records: seq<Record>, event: string, callId: string, i: nat) {
    i < |records| && forall k :: 0 <= k < |records| ==> (IsEvent(records, event, callId, k) <==> k == i)
  }

  predicate NoEvent(records: seq<Record>, event: string, callId: string) {
    forall k :: 0 <= k < |records| ==> !IsEvent(records, event, callId, k)
  }

  lemma {:induction false} MatchingNone(records: seq<Record>, event: string, callId: string)
    ensures Matching(records, event, callId) == [] <==> NoEvent(records, event, callId)
  {
    if records != [] {
      MatchingNone(records[1..], event, callId);
      if NoEvent(records, event, callId) {
        assert !IsEvent(records, event, callId, 0);
        forall k | 0 <= k < |records| - 1 ensures !IsEvent(records[1..], event, callId, k) {
          assert !IsEvent(records, event, callId, k + 1);
        }
      }
      if NoEvent(records[1..], event, callId) && !IsEvent(records, event, callId, 0) {
        forall k | 0 <= k < |records| ensures !IsEvent(records, event, callId, k) {
          if k > 0 { assert !IsEvent(records[1..], event, callId, k - 1); }
        }
      }
    }
  }

  /** Exactly one record matches when there is one such record, and it is that one. */
  lemma {:induction false} MatchingOne(records: seq<Record>, event: string, callId: string)
    ensures |Matching(records, event, callId)| == 1 <==> exists i: nat :: OnlyEvent(records, event, callId, i)
    ensures forall i: nat :: OnlyEvent(records, event, callId, i) ==> Matching(records, event, callId) == [records[i]]
  {
    if records != [] {
      var rest := records[1..];
      MatchingOne(rest, event, callId);
      MatchingNone(rest, event, callId);
      forall i: nat | OnlyEvent(records, event, callId, i)
        ensures Matching(records, event, callId) == [records[i]]
      {
        assert IsEvent(records, event, callId, 0) <==> i == 0;
        forall k | 0 <= k < |rest| ensures IsEvent(rest, event, callId, k) <==> k == i - 1 {
          assert IsEvent(records, event, callId, k + 1) <==> k + 1 == i;
        }
        if i == 0 { assert NoEvent(rest, event, callId); } else { assert OnlyEvent(rest, event, callId, i - 1); }
      }
      if |Matching(records, event, callId)| == 1 { OneIsFound(records, event, callId); }
    }
  }

  lemma {:induction false} OneIsFound(records: seq<Record>, event: string, callId: string)
    requires records != [] && |Matching(records, event, callId)| == 1
    requires |Matching(records[1..], event, callId)| == 1 ==> exists i: nat :: OnlyEvent(records[1..], event, callId, i)
    ensures exists i: nat :: OnlyEvent(records, event, callId, i)
  {
    var rest := records[1..];
    assert forall k :: 0 <= k < |rest| ==>
             (IsEvent(rest, event, callId, k) <==> IsEvent(records, event, callId, k + 1));
    if IsEvent(records, event, callId, 0) {
      MatchingNone(rest, event, callId);
      assert Matching(rest, event, callId) == [];
      forall k | 0 <= k < |records| ensures IsEvent(records, event, callId, k) <==> k == 0 {
        if k > 0 { assert !IsEvent(rest, event, callId, k - 1); }
      }
      assert OnlyEvent(records, event, callId, 0);
    } else {
      assert Matching(records, event, callId) == Matching(rest, event, callId);
      var i: nat :| OnlyEvent(rest, event, callId, i);
      forall k | 0 <= k < |records| ensures IsEvent(records, event, callId, k) <==> k == i + 1 {
        if k > 0 { assert IsEvent(rest, event, callId, k - 1) <==> k - 1 == i; }
      }
      assert OnlyEvent(records, event, callId, i + 1);
    }
  }

  /** Call and result may be taken for the tool's: both stamped, of this tool and agent, in the same
      trace, session and turn as each other and as the owner where the owner says so, one after the
      other and within the request. */
  predicate BelongTogether(a: Record, b: Record, tool: Tool, q: Request) {
    && a.time.Some? && b.time.Some?
    && a.toolName == Some(tool.name) && b.toolName == Some(tool.name)
    && a.agentId == q.owner.agentId && b.agentId == q.owner.agentId
    && a.traceId == b.traceId && a.sessionId == b.sessionId && a.turnId == b.turnId
    && (q.owner.traceId.Some? ==> a.traceId == q.owner.traceId)
    && (q.owner.sessionId.Some? ==> a.sessionId == q.owner.sessionId)
    && (q.owner.turnId.Some? ==> a.turnId == q.owner.turnId)
    && q.lower <= a.time.value && a.time.value < b.time.value && b.time.value <= q.upper
  }

  /** What a Wait says of itself, in nanoseconds: it is believed if it takes time, within a second
      of what it claims, and lies within the request. */
  predicate WaitIs(tool: Tool, q: Request, i: Interval) {
    && tool.name == "Wait" && tool.completed && tool.wait.Some?
    && var w := tool.wait.value;
       && i == Interval(w.startMs * 1_000_000, w.endMs * 1_000_000, None)
       && w.startMs < w.endMs
       && -1000.0 <= (w.endMs - w.startMs) as real - w.waitedSeconds * 1000.0 <= 1000.0
       && q.lower <= i.start && i.end <= q.upper
  }

  /** When a tool's interval is observed, and which it is. With one call and one result on record
      these two decide; with none of either, a Wait's own word does; anything else is no evidence. */
  lemma {:induction false} ObservedIff(tool: Tool, q: Request, i: Interval)
    ensures ToolInterval(tool, q) == Some(i) <==>
              || (exists a: nat, b: nat ::
                    && OnlyEvent(q.records, "tool.call", tool.callId, a)
                    && OnlyEvent(q.records, "tool.result", tool.callId, b)
                    && BelongTogether(q.records[a], q.records[b], tool, q)
                    && i == Interval(q.records[a].time.value, q.records[b].time.value, Some(q.records[b].status)))
              || (&& NoEvent(q.records, "tool.call", tool.callId) && NoEvent(q.records, "tool.result", tool.callId)
                  && WaitIs(tool, q, i))
  {
    MatchingOne(q.records, "tool.call", tool.callId);
    MatchingOne(q.records, "tool.result", tool.callId);
    MatchingNone(q.records, "tool.call", tool.callId);
    MatchingNone(q.records, "tool.result", tool.callId);
  }

  // ---------------------------------------------------------------- the intervals of a round

  function Lookup(m: Intervals, key: string): Option<Interval> {
    if m == [] then None else if m[0].0 == key then Some(m[0].1) else Lookup(m[1..], key)
  }

  function Keys(m: Intervals): seq<string> { Map((e: (string, Interval)) => e.0, m) }

  /** `Map.set`: the value under the key, its place the old one or the last. */
  lemma {:induction false} PutIsSet(m: Intervals, key: string, v: Interval, other: string)
    ensures Lookup(Put(m, key, v), other) == if other == key then Some(v) else Lookup(m, other)
    ensures Keys(Put(m, key, v)) == if key in Keys(m) then Keys(m) else Keys(m) + [key]
  {
    PutIsFound(m, key, v, other);
    PutKeys(m, key, v);
  }

  lemma {:induction false} PutIsFound(m: Intervals, key: string, v: Interval, other: string)
    ensures Lookup(Put(m, key, v), other) == if other == key then Some(v) else Lookup(m, other)
  {
    if m != [] {
      PutIsFound(m[1..], key, v, other);
      assert ([(key, v)] + m[1..])[1..] == m[1..];
      assert ([m[0]] + Put(m[1..], key, v))[1..] == Put(m[1..], key, v);
    }
  }

  lemma {:induction false} PutKeys(m: Intervals, key: string, v: Interval)
    ensures Keys(Put(m, key, v)) == if key in Keys(m) then Keys(m) else Keys(m) + [key]
  {
    if m != [] {
      PutKeys(m[1..], key, v);
      assert m == [m[0]] + m[1..];
      KeysCons(m[0], m[1..]);
      KeysCons((key, v), m[1..]);
      KeysCons(m[0], Put(m[1..], key, v));
      assert key in Keys(m) <==> key == m[0].0 || key in Keys(m[1..]);
      assert [m[0].0] + (Keys(m[1..]) + [key]) == ([m[0].0] + Keys(m[1..])) + [key];
    }
  }

  lemma {:induction false} KeysCons(e: (string, Interval), m: Intervals)
    ensures Keys([e] + m) == [e.0] + Keys(m)
  {
  }

  /** The last observed interval of a call id among these tools. */
  function LastObserved(tools: seq<Tool>, q: Request, callId: string): Option<Interval> {
    if tools == [] then None
    else
      var last := tools[|tools| - 1];
      if last.callId == callId && ToolInterval(last, q).Some? then ToolInterval(last, q)
      else LastObserved(tools[..|tools| - 1], q, callId)
  }

  /** A round's intervals are those observed of its tools, one under each call id. */
  lemma {:induction false} KnownToolsAreObserved(tools: seq<Tool>, q: Request, callId: string)
    ensures Lookup(KnownTools(tools, q), callId) == LastObserved(tools, q, callId)
    ensures var keys := Keys(KnownTools(tools, q)); forall a, b :: 0 <= a < b < |keys| ==> keys[a] != keys[b]
    ensures callId in Keys(KnownTools(tools, q)) <==> LastObserved(tools, q, callId).Some?
  {
    if tools != [] {
      var before, last := KnownTools(tools[..|tools| - 1], q), tools[|tools| - 1];
      KnownToolsAreObserved(tools[..|tools| - 1], q, callId);
      var i := ToolInterval(last, q);
      if i.Some? { PutIsSet(before, last.callId, i.value, callId); }
    }
  }

  // ---------------------------------------------------------------- when there is an estimate

  /** An estimate exists exactly when the anchors come in order, and every observed interval lies
      between the end of its round's model call and the round's end. */
  lemma {:induction false} EstimableIff(spans: seq<Span>, lower: int, upper: int)
    ensures Estimable(spans, lower, upper) <==>
              && Ordered(Anchors(spans, lower, upper), upper)
              && forall k, i :: 0 <= k < |spans| && 0 <= i < |spans[k].tools| ==>
                   && Times(spans, lower, upper)[k].llmEnd <= spans[k].tools[i].1.start
                   && spans[k].tools[i].1.end <= Times(spans, lower, upper)[k].end
  {
    var times := Times(spans, lower, upper);
    forall k | 0 <= k < |spans| ensures times[k].tools == spans[k].tools {
      TimesOnAt(Filled(Anchors(spans, lower, upper)), spans, |spans|, k);
    }
    if Ordered(Anchors(spans, lower, upper), upper) {
      if forall k, i :: 0 <= k < |spans| && 0 <= i < |spans[k].tools| ==>
           times[k].llmEnd <= spans[k].tools[i].1.start && spans[k].tools[i].1.end <= times[k].end {
        forall t | t in times ensures ToolsInside(t) {
          var k :| 0 <= k < |times| && times[k] == t;
          forall tool | tool in t.tools ensures t.llmEnd <= tool.1.start && tool.1.end <= t.end {
            var i :| 0 <= i < |t.tools| && t.tools[i] == tool;
            assert spans[k].tools[i] == tool;
          }
        }
      }
      if forall t <- times :: ToolsInside(t) {
        forall k, i | 0 <= k < |spans| && 0 <= i < |spans[k].tools|
          ensures times[k].llmEnd <= spans[k].tools[i].1.start && spans[k].tools[i].1.end <= times[k].end
        {
          assert ToolsInside(times[k]);
          assert spans[k].tools[i] in times[k].tools;
        }
      }
    }
  }

  /** So a round whose calls are all observed never stands in the way: its own tools fit. */
  lemma {:induction false} ObservedRoundFits(rounds: seq<Round>, q: Request, k: nat)
    requires k < |rounds| && rounds[k].callIds != []
    requires |KnownTools(rounds[k].tools, q)| == |rounds[k].callIds|
    requires var spans := Spans(rounds, q, |rounds|); Ordered(Anchors(spans, q.lower, q.upper), q.upper)
    ensures var spans := Spans(rounds, q, |rounds|); ToolsInside(Times(spans, q.lower, q.upper)[k])
  {
    var spans := Spans(rounds, q, |rounds|);
    var known := Anchors(spans, q.lower, q.upper);
    SpansAt(rounds, q, |rounds|, k);
    FilledFills(known, q.upper);
    RoundOnLine(Filled(known), spans, q.lower, q.upper, k);
    SpanMeaning(rounds[k], q);
  }
}
