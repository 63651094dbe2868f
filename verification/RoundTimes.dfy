/** Placing assistant rounds on the time line of a request.

    Each round contributes one boundary for the end of its model call and, when it calls
    tools, one for the end of its tools. Some boundaries are anchored by observed tool
    intervals; the others are interpolated in place between their neighbours. */
module RoundTimes {
  import opened Wrappers
  import opened Seqs

  datatype Interval = Interval(start: int, end: int, status: Option<string>)

  /** A native record; `time` is present when the stamp is a string of 19 digits. */
  datatype Record = Record(
    event: string, callId: Option<string>, time: Option<int>, toolName: Option<string>, agentId: Option<string>,
    traceId: Option<string>, sessionId: Option<string>, turnId: Option<string>, status: string)

  /** The parsed text a native Wait returned: its interval in milliseconds and the seconds it claims. */
  datatype WaitResult = WaitResult(startMs: int, endMs: int, waitedSeconds: real)

  /** `wait` is present when the tool's result is text that parses as a Wait result. */
  datatype Tool = Tool(callId: string, name: string, completed: bool, wait: Option<WaitResult>)

  datatype Round = Round(callIds: seq<string>, tools: seq<Tool>)

  /** A `Map<string, Interval>` in insertion order. */
  type Intervals = seq<(string, Interval)>

  datatype RoundTime = RoundTime(start: int, llmEnd: int, end: int, tools: Intervals)

  /** What the estimate is made from. */
  datatype Request = Request(records: seq<Record>, lower: int, upper: int, owner: Record)

  // ---------------------------------------------------------------- observed tool intervals

  function Matching(records: seq<Record>, event: string, callId: string): seq<Record> {
    if records == [] then []
    else (if records[0].event == event && records[0].callId == Some(callId) then [records[0]] else [])
         + Matching(records[1..], event, callId)
  }

  predicate SameScope(a: Option<string>, b: Option<string>, owner: Option<string>) {
    a == b && (owner == None || a == owner)
  }

  predicate Paired(a: Record, b: Record, tool: Tool, q: Request) {
    && a.time.Some? && b.time.Some?
    && a.toolName == b.toolName == Some(tool.name)
    && a.agentId == q.owner.agentId == b.agentId
    && SameScope(a.traceId, b.traceId, q.owner.traceId)
    && SameScope(a.sessionId, b.sessionId, q.owner.sessionId)
    && SameScope(a.turnId, b.turnId, q.owner.turnId)
    && q.lower <= a.time.value < b.time.value <= q.upper
  }

  function NativeWaitInterval(w: WaitResult, lower: int, upper: int): Option<Interval> {
    var excessMs := (w.endMs - w.startMs) as real - w.waitedSeconds * 1000.0;
    if w.endMs <= w.startMs || excessMs > 1000.0 || excessMs < -1000.0 then None
    else
      var start, end := w.startMs * 1_000_000, w.endMs * 1_000_000;
      if start >= lower && end <= upper then Some(Interval(start, end, None)) else None
  }

  function ToolInterval(tool: Tool, q: Request): (r: Option<Interval>)
    ensures r.Some? ==> q.lower <= r.value.start < r.value.end <= q.upper
  {
    var calls, results := Matching(q.records, "tool.call", tool.callId), Matching(q.records, "tool.result", tool.callId);
    if |calls| == 1 && |results| == 1 then
      if Paired(calls[0], results[0], tool, q)
      then Some(Interval(calls[0].time.value, results[0].time.value, Some(results[0].status)))
      else None
    else if calls == [] && results == [] && tool.name == "Wait" && tool.completed && tool.wait.Some? then
      NativeWaitInterval(tool.wait.value, q.lower, q.upper)
    else None
  }

  /** `Map.set`: a key already present keeps its place. */
  function Put(m: Intervals, key: string, v: Interval): Intervals {
    if m == [] then [(key, v)]
    else if m[0].0 == key then [(key, v)] + m[1..]
    else [m[0]] + Put(m[1..], key, v)
  }

  function KnownTools(tools: seq<Tool>, q: Request): Intervals {
    if tools == [] then []
    else
      var before := KnownTools(tools[..|tools| - 1], q);
      var tool := tools[|tools| - 1];
      match ToolInterval(tool, q)
      case None => before
      case Some(i) => Put(before, tool.callId, i)
  }

  function Earliest(known: Intervals): (r: int)
    requires known != []
    ensures forall k <- known :: r <= k.1.start
    ensures exists k <- known :: r == k.1.start
  {
    if |known| == 1 then known[0].1.start
    else
      var rest := Earliest(known[1..]);
      if known[0].1.start < rest then known[0].1.start else rest
  }

  function Latest(known: Intervals): (r: int)
    requires known != []
    ensures forall k <- known :: k.1.end <= r
    ensures exists k <- known :: r == k.1.end
  {
    if |known| == 1 then known[0].1.end
    else
      var rest := Latest(known[1..]);
      if known[0].1.end > rest then known[0].1.end else rest
  }

  // ---------------------------------------------------------------- anchors

  function LlmAnchor(round: Round, q: Request): Option<int> {
    var known := KnownTools(round.tools, q);
    if known == [] then None else Some(Earliest(known))
  }

  /** The tools' end is anchored only when every call of the round has an observed interval. */
  function EndAnchor(round: Round, q: Request): Option<int>
    requires round.callIds != []
  {
    var known := KnownTools(round.tools, q);
    if |known| == |round.callIds| then Some(Latest(known)) else None
  }

  /** What one round adds to the line: the end of its model call, then the end of its tools
      when it calls any. */
  datatype Span = Span(llmEnd: Option<int>, toolsEnd: Option<Option<int>>, tools: Intervals) {
    function Anchors(): seq<Option<int>> { [llmEnd] + if toolsEnd.Some? then [toolsEnd.value] else [] }

    predicate LastUnknown() { if toolsEnd.Some? then toolsEnd.value.None? else llmEnd.None? }
  }

  function SpanOf(round: Round, q: Request): Span {
    Span(LlmAnchor(round, q), if round.callIds == [] then None else Some(EndAnchor(round, q)), KnownTools(round.tools, q))
  }

  /** The spans of the first `n` rounds. */
  function Spans(rounds: seq<Round>, q: Request, n: nat): (r: seq<Span>)
    requires n <= |rounds|
    ensures |r| == n
  {
    if n == 0 then [] else Spans(rounds, q, n - 1) + [SpanOf(rounds[n - 1], q)]
  }

  lemma {:induction false} SpansAt(rounds: seq<Round>, q: Request, n: nat, k: nat)
    requires k < n <= |rounds|
    ensures Spans(rounds, q, n)[k] == SpanOf(rounds[k], q)
  {
    if k < n - 1 { SpansAt(rounds, q, n - 1, k); }
  }

  /** Boundary index where round `k` starts, which is where round `k - 1` ends. */
  function EndIndex(spans: seq<Span>, k: nat): nat
    requires k <= |spans|
  {
    if k == 0 then 0 else EndIndex(spans, k - 1) + if spans[k - 1].toolsEnd.Some? then 2 else 1
  }

  lemma {:induction false} EndIndexAscends(spans: seq<Span>, k: nat, n: nat)
    requires k <= n <= |spans|
    ensures EndIndex(spans, k) + (n - k) <= EndIndex(spans, n)
  {
    if k < n { EndIndexAscends(spans, k, n - 1); }
  }

  /** The request's start, then the boundaries of the first `n` rounds, anchored where known. */
  function RawAnchors(spans: seq<Span>, lower: int, n: nat): (r: seq<Option<int>>)
    requires n <= |spans|
    ensures |r| == EndIndex(spans, n) + 1 && r[0] == Some(lower)
  {
    if n == 0 then [Some(lower)] else RawAnchors(spans, lower, n - 1) + spans[n - 1].Anchors()
  }

  /** A last boundary nobody observed is the request's end. */
  function Anchors(spans: seq<Span>, lower: int, upper: int): (r: seq<Option<int>>)
    ensures |r| == EndIndex(spans, |spans|) + 1 && r[0] == Some(lower) && r[|r| - 1].Some?
  {
    var raw := RawAnchors(spans, lower, |spans|);
    if raw[|raw| - 1].Some? then raw else raw[|raw| - 1 := Some(upper)]
  }

  lemma {:induction false} RawAnchorsAt(spans: seq<Span>, lower: int, n: nat, k: nat)
    requires k < n <= |spans|
    ensures var e := EndIndex(spans, k);
            && EndIndex(spans, k + 1) <= EndIndex(spans, n)
            && RawAnchors(spans, lower, n)[e + 1] == spans[k].llmEnd
            && (spans[k].toolsEnd.Some? ==> RawAnchors(spans, lower, n)[e + 2] == spans[k].toolsEnd.value)
  {
    if k < n - 1 {
      RawAnchorsAt(spans, lower, n - 1, k);
    }
  }

  // ---------------------------------------------------------------- interpolation

  ghost predicate Closed(known: seq<Option<int>>) {
    known != [] && known[0].Some? && known[|known| - 1].Some?
  }

  function Prev(known: seq<Option<int>>, j: nat): (l: nat)
    requires j < |known| && known[0].Some?
    ensures l <= j && known[l].Some? && forall i :: l < i <= j ==> known[i].None?
  {
    if known[j].Some? then j else Prev(known, j - 1)
  }

  function Next(known: seq<Option<int>>, j: nat): (r: nat)
    requires j < |known| && known[|known| - 1].Some?
    ensures j <= r < |known| && known[r].Some? && forall i :: j <= i < r ==> known[i].None?
    decreases |known| - j
  {
    if known[j].Some? then j else Next(known, j + 1)
  }

  /** The straight line between two anchors; no caller passes `l == r`. */
  function Between(begin: int, finish: int, l: nat, j: nat, r: nat): int {
    if l < r then begin + (finish - begin) * (j - l) / (r - l) else begin
  }

  /** A known boundary is kept; an unknown one lies on the line between its nearest known neighbours. */
  ghost function Interpolated(known: seq<Option<int>>, j: nat): int
    requires Closed(known) && j < |known|
  {
    var l, r := Prev(known, j), Next(known, j);
    Between(known[l].value, known[r].value, l, j, r)
  }

  ghost function Filled(known: seq<Option<int>>): seq<int>
    requires Closed(known)
  {
    seq(|known|, j requires 0 <= j < |known| => Interpolated(known, j))
  }

  /** Boundary `j`, when it is an anchor, is no earlier than the anchor before it and not past `upper`. */
  ghost predicate InOrderAt(known: seq<Option<int>>, j: nat, upper: int)
    requires 1 <= j < |known| && Closed(known)
  {
    known[j].Some? ==> known[Prev(known, j - 1)].value <= known[j].value <= upper
  }

  ghost predicate OrderedUpTo(known: seq<Option<int>>, n: nat, upper: int)
    requires n <= |known| && Closed(known)
  {
    forall j :: 1 <= j < n ==> InOrderAt(known, j, upper)
  }

  ghost predicate Ordered(known: seq<Option<int>>, upper: int)
    requires Closed(known)
  {
    OrderedUpTo(known, |known|, upper)
  }

  lemma {:induction false} AnchorsAscend(known: seq<Option<int>>, upper: int, i: nat, j: nat)
    requires Closed(known) && Ordered(known, upper)
    requires i <= j < |known| && known[i].Some? && known[j].Some?
    ensures known[i].value <= known[j].value
  {
    assert j > 0 ==> InOrderAt(known, j, upper);
    if i < j { AnchorsAscend(known, upper, i, Prev(known, j - 1)); }
  }

  lemma {:induction false} MulMonotone(x: int, a: int, b: int)
    requires 0 <= x && a <= b
    ensures x * a <= x * b
  {
  }

  lemma {:induction false} DivMonotone(x: int, y: int, d: int)
    requires x <= y && 0 < d
    ensures x / d <= y / d
  {
    var p, q := x / d, y / d;
    assert x == d * p + x % d && y == d * q + y % d;
    if p > q { MulMonotone(d, q + 1, p); }
  }

  lemma {:induction false} DivExact(x: int, d: int)
    requires 0 < d
    ensures x * d / d == x
  {
    var q := x * d / d;
    assert x * d == d * q + (x * d) % d;
    if q > x { MulMonotone(d, x + 1, q); }
    if q < x { MulMonotone(d, q + 1, x); }
  }

  lemma {:induction false} BetweenMonotone(begin: int, finish: int, l: nat, i: nat, j: nat, r: nat)
    requires begin <= finish && l <= i <= j <= r && l < r
    ensures begin <= Between(begin, finish, l, i, r) <= Between(begin, finish, l, j, r) <= finish
  {
    var x, d := finish - begin, r - l;
    MulMonotone(x, 0, i - l);
    MulMonotone(x, i - l, j - l);
    MulMonotone(x, j - l, d);
    DivMonotone(0, x * (i - l), d);
    DivMonotone(x * (i - l), x * (j - l), d);
    DivMonotone(x * (j - l), x * d, d);
    assert x * d / d == x by { DivExact(x, d); }
  }

  lemma {:induction false} InterpolatedInGap(known: seq<Option<int>>, upper: int, j: nat)
    requires Closed(known) && Ordered(known, upper) && j < |known|
    ensures known[Prev(known, j)].value <= Interpolated(known, j) <= known[Next(known, j)].value
    ensures known[j].Some? ==> Interpolated(known, j) == known[j].value
  {
    var l, r := Prev(known, j), Next(known, j);
    AnchorsAscend(known, upper, l, r);
    if l < r { BetweenMonotone(known[l].value, known[r].value, l, j, j, r); }
  }

  /** Unknown boundaries are spread evenly: of the way between the two anchors around it, boundary
      `j` has gone its share, rounded down. */
  lemma {:induction false} EvenlySpread(known: seq<Option<int>>, l: nat, j: nat, r: nat)
    requires Closed(known) && l <= j <= r < |known| && l < r && known[l].Some? && known[r].Some?
    requires forall i :: l < i < r ==> known[i].None?
    ensures var way, gone := known[r].value - known[l].value, Interpolated(known, j) - known[l].value;
            0 <= way * (j - l) - gone * (r - l) < r - l
  {
    var way, n, d := known[r].value - known[l].value, j - l, r - l;
    if n == 0 {
      assert Interpolated(known, j) == known[l].value by { assert Prev(known, j) == l && Next(known, j) == l; }
      NoWay(way, d);
    } else if n == d {
      assert Interpolated(known, j) == known[r].value by { assert Prev(known, j) == r && Next(known, j) == r; }
      NoWay(way, d);
    } else {
      assert Interpolated(known, j) == known[l].value + way * n / d by {
        assert Prev(known, j) == l && Next(known, j) == r;
      }
      Share(way * n, d);
    }
  }

  lemma {:induction false} Share(x: int, d: int)
    requires 0 < d
    ensures 0 <= x - x / d * d < d
  {
    assert x == d * (x / d) + x % d;
  }

  lemma {:induction false} NoWay(way: int, d: int)
    ensures way * 0 - 0 * d == 0 && way * d - way * d == 0
  {
  }

  /** Filling the gaps keeps the time line ordered. */
  lemma {:induction false} InterpolatedMonotone(known: seq<Option<int>>, upper: int, i: nat, j: nat)
    requires Closed(known) && Ordered(known, upper) && i <= j < |known|
    ensures Interpolated(known, i) <= Interpolated(known, j)
  {
    var li, ri, lj, rj := Prev(known, i), Next(known, i), Prev(known, j), Next(known, j);
    InterpolatedInGap(known, upper, i);
    InterpolatedInGap(known, upper, j);
    if ri <= lj {
      AnchorsAscend(known, upper, ri, lj);
    } else {
      assert known[i].None? && known[j].None? && li == lj && ri == rj;
      AnchorsAscend(known, upper, li, ri);
      BetweenMonotone(known[li].value, known[ri].value, li, i, j, ri);
    }
  }

  lemma {:induction false} InterpolatedBelowUpper(known: seq<Option<int>>, upper: int, j: nat)
    requires Closed(known) && Ordered(known, upper) && 1 <= j < |known|
    ensures Interpolated(known, j) <= upper
  {
    InterpolatedInGap(known, upper, j);
    assert InOrderAt(known, Next(known, j), upper);
  }

  /** The in-place fill: `left` is the last known boundary, `right` walks on from it. The
      result is absent exactly when an anchor precedes an earlier one or passes `upper`. */
  method FillBoundaries(known: seq<Option<int>>, upper: int) returns (ok: bool, boundaries: seq<Option<int>>)
    requires Closed(known)
    ensures ok <==> Ordered(known, upper)
    ensures ok ==> |boundaries| == |known| && forall j :: 0 <= j < |known| ==> boundaries[j] == Some(Filled(known)[j])
  {
    boundaries := known;
    var left := 0;
    var right := 1;
    while right < |boundaries|
      invariant |boundaries| == |known|
      invariant left < right <= |known| && known[left].Some? && forall i :: left < i < right ==> known[i].None?
      invariant forall j :: 0 <= j <= left ==> boundaries[j] == Some(Interpolated(known, j))
      invariant forall j :: left <= j < |known| ==> boundaries[j] == known[j]
      invariant OrderedUpTo(known, left + 1, upper)
    {
      if boundaries[right].None? {
        right := right + 1;
        continue;
      }
      var begin, finish := boundaries[left].value, boundaries[right].value;
      assert Prev(known, right - 1) == left;
      if finish < begin || finish > upper {
        assert !InOrderAt(known, right, upper);
        return false, boundaries;
      }
      boundaries := FillGap(known, boundaries, left, right);
      assert Interpolated(known, right) == known[right].value;
      left := right;
      right := right + 1;
    }
    ok := true;
  }

  /** The inner loop: every boundary strictly between two anchors. */
  method FillGap(known: seq<Option<int>>, before: seq<Option<int>>, left: nat, right: nat)
    returns (boundaries: seq<Option<int>>)
    requires Closed(known) && |before| == |known|
    requires left < right < |known| && known[left].Some? && known[right].Some?
    requires forall i :: left < i < right ==> known[i].None?
    requires before[left] == known[left] && before[right] == known[right]
    ensures |boundaries| == |known|
    ensures forall j :: left < j < right ==> boundaries[j] == Some(Interpolated(known, j))
    ensures forall j :: 0 <= j < |known| && !(left < j < right) ==> boundaries[j] == before[j]
  {
    boundaries := before;
    var begin, finish := boundaries[left].value, boundaries[right].value;
    var j := left + 1;
    while j < right
      invariant left < j <= right && |boundaries| == |known|
      invariant forall i :: left < i < j ==> boundaries[i] == Some(Interpolated(known, i))
      invariant forall i :: 0 <= i < |known| && !(left < i < j) ==> boundaries[i] == before[i]
    {
      assert Prev(known, j) == left && Next(known, j) == right;
      boundaries := boundaries[j := Some(begin + (finish - begin) * (j - left) / (right - left))];
      j := j + 1;
    }
  }

  // ---------------------------------------------------------------- the estimate

  /** Round `k` on a line of boundaries. */
  ghost function TimeOn(line: seq<int>, spans: seq<Span>, k: nat): RoundTime
    requires k < |spans| && EndIndex(spans, k + 1) < |line|
  {
    var e := EndIndex(spans, k);
    RoundTime(line[e], line[e + 1], line[EndIndex(spans, k + 1)], spans[k].tools)
  }

  ghost function TimesOn(line: seq<int>, spans: seq<Span>, n: nat): (r: seq<RoundTime>)
    requires n <= |spans| && EndIndex(spans, n) < |line|
    ensures |r| == n
  {
    if n == 0 then [] else TimesOn(line, spans, n - 1) + [TimeOn(line, spans, n - 1)]
  }

  lemma {:induction false} TimesOnAt(line: seq<int>, spans: seq<Span>, n: nat, k: nat)
    requires k < n <= |spans| && EndIndex(spans, n) < |line|
    ensures EndIndex(spans, k + 1) < |line|
    ensures TimesOn(line, spans, n)[k] == TimeOn(line, spans, k)
  {
    EndIndexAscends(spans, k + 1, n);
    if k < n - 1 { TimesOnAt(line, spans, n - 1, k); }
  }

  ghost function Times(spans: seq<Span>, lower: int, upper: int): (r: seq<RoundTime>)
    ensures |r| == |spans|
  {
    TimesOn(Filled(Anchors(spans, lower, upper)), spans, |spans|)
  }

  predicate ToolsInside(t: RoundTime) {
    forall tool <- t.tools :: t.llmEnd <= tool.1.start && tool.1.end <= t.end
  }

  /** When an estimate exists: the observed anchors come in order, and every observed tool
      interval falls inside its round. */
  ghost predicate Estimable(spans: seq<Span>, lower: int, upper: int) {
    && Ordered(Anchors(spans, lower, upper), upper)
    && forall t <- Times(spans, lower, upper) :: ToolsInside(t)
  }

  method EstimateRoundTimes(rounds: seq<Round>, records: seq<Record>, startNano: Option<int>, endNano: Option<int>,
                            owner: Record)
    returns (r: Option<seq<RoundTime>>)
    ensures startNano.None? || endNano.None? ==> r.None?
    ensures startNano.Some? && endNano.Some? ==>
              var lower, upper := startNano.value, endNano.value;
              var spans := Spans(rounds, Request(records, lower, upper, owner), |rounds|);
              r == if Estimable(spans, lower, upper) then Some(Times(spans, lower, upper)) else None
  {
    if startNano.None? || endNano.None? {
      return None;
    }
    var q := Request(records, startNano.value, endNano.value, owner);
    ghost var spans := Spans(rounds, q, |rounds|);
    var boundaries, indexes := CollectBoundaries(rounds, q, spans);
    if boundaries[|boundaries| - 1].None? {
      boundaries := boundaries[|boundaries| - 1 := Some(q.upper)];
    }
    ghost var line := Filled(Anchors(spans, q.lower, q.upper));
    var ok;
    ok, boundaries := FillBoundaries(boundaries, q.upper);
    if !ok {
      return None;
    }
    var times := BuildTimes(boundaries, indexes, line, spans);
    if exists t <- times :: !ToolsInside(t) {
      return None;
    }
    r := Some(times);
  }

  type Indexes = (nat, nat, nat, Intervals)

  ghost predicate IndexesAt(i: Indexes, spans: seq<Span>, k: nat)
    requires k < |spans|
  {
    i == (EndIndex(spans, k), EndIndex(spans, k) + 1, EndIndex(spans, k + 1), spans[k].tools)
  }

  /** The closing `indexes.map`. */
  method BuildTimes(boundaries: seq<Option<int>>, indexes: seq<Indexes>, ghost line: seq<int>, ghost spans: seq<Span>)
    returns (times: seq<RoundTime>)
    requires |indexes| == |spans| && forall k :: 0 <= k < |spans| ==> IndexesAt(indexes[k], spans, k)
    requires |boundaries| == |line| && EndIndex(spans, |spans|) < |line|
    requires forall j :: 0 <= j < |line| ==> boundaries[j] == Some(line[j])
    ensures times == TimesOn(line, spans, |spans|)
  {
    times := [];
    for k := 0 to |indexes|
      invariant EndIndex(spans, k) < |line| && times == TimesOn(line, spans, k)
    {
      EndIndexAscends(spans, k + 1, |spans|);
      assert IndexesAt(indexes[k], spans, k);
      var (start, llmEnd, end, tools) := indexes[k];
      times := times + [RoundTime(boundaries[start].value, boundaries[llmEnd].value, boundaries[end].value, tools)];
    }
  }

  /** The first loop: two pushes per round, with the indexes they landed on. */
  method CollectBoundaries(rounds: seq<Round>, q: Request, ghost spans: seq<Span>)
    returns (boundaries: seq<Option<int>>, indexes: seq<Indexes>)
    requires spans == Spans(rounds, q, |rounds|)
    ensures boundaries == RawAnchors(spans, q.lower, |rounds|)
    ensures |indexes| == |rounds| && forall k :: 0 <= k < |rounds| ==> IndexesAt(indexes[k], spans, k)
  {
    boundaries, indexes := [Some(q.lower)], [];
    for n := 0 to |rounds|
      invariant boundaries == RawAnchors(spans, q.lower, n)
      invariant |indexes| == n && forall k :: 0 <= k < n ==> IndexesAt(indexes[k], spans, k)
    {
      var span := CollectSpan(rounds, n, q);
      var llmEnd := |boundaries|;
      boundaries := boundaries + span.Anchors();
      indexes := indexes + [(llmEnd - 1, llmEnd, |boundaries| - 1, span.tools)];
      assert IndexesAt(indexes[n], spans, n);
    }
  }

  /** The loop over the tools of one round, and the boundaries it pushes. */
  method CollectSpan(rounds: seq<Round>, n: nat, q: Request) returns (span: Span)
    requires n < |rounds|
    ensures span == Spans(rounds, q, |rounds|)[n]
  {
    var round := rounds[n];
    SpansAt(rounds, q, |rounds|, n);
    var known := [];
    for i := 0 to |round.tools|
      invariant known == KnownTools(round.tools[..i], q)
    {
      assert round.tools[..i + 1][..i] == round.tools[..i];
      var interval := ToolInterval(round.tools[i], q);
      if interval.Some? {
        known := Put(known, round.tools[i].callId, interval.value);
      }
    }
    assert round.tools[..|round.tools|] == round.tools;
    span := Span(if known == [] then None else Some(Earliest(known)),
                 if round.callIds == [] then None
                 else Some(if |known| == |round.callIds| then Some(Latest(known)) else None),
                 known);
  }

  // ---------------------------------------------------------------- the time line

  /** A filled line ascends from the request's start, stays within the request, and keeps the anchors. */
  ghost predicate Fills(line: seq<int>, known: seq<Option<int>>, upper: int) {
    && |line| == |known|
    && (forall i, j :: 0 <= i <= j < |line| ==> line[i] <= line[j])
    && (forall j :: 1 <= j < |line| ==> line[j] <= upper)
    && (forall j :: 0 <= j < |line| && known[j].Some? ==> line[j] == known[j].value)
  }

  lemma {:induction false} FilledFills(known: seq<Option<int>>, upper: int)
    requires Closed(known) && Ordered(known, upper)
    ensures Fills(Filled(known), known, upper)
  {
    forall i, j | 0 <= i <= j < |known| ensures Filled(known)[i] <= Filled(known)[j] {
      InterpolatedMonotone(known, upper, i, j);
    }
    forall j | 1 <= j < |known| ensures Filled(known)[j] <= upper {
      InterpolatedBelowUpper(known, upper, j);
    }
    forall j | 0 <= j < |known| && known[j].Some? ensures Filled(known)[j] == known[j].value {
      InterpolatedInGap(known, upper, j);
    }
  }

  lemma {:induction false} RoundOnLine(line: seq<int>, spans: seq<Span>, lower: int, upper: int, k: nat)
    requires Fills(line, Anchors(spans, lower, upper), upper) && k < |spans|
    ensures var times := TimesOn(line, spans, |spans|);
            var t := times[k];
            && lower <= t.start <= t.llmEnd <= t.end <= upper
            && (k == 0 ==> t.start == lower)
            && (k + 1 < |spans| ==> times[k + 1].start == t.end)
            && t.tools == spans[k].tools
            && (spans[k].llmEnd.Some? ==> t.llmEnd == spans[k].llmEnd.value)
            && (spans[k].toolsEnd.Some? && spans[k].toolsEnd.value.Some? ==> t.end == spans[k].toolsEnd.value.value)
            && (k == |spans| - 1 && spans[k].LastUnknown() ==> t.end == upper)
  {
    TimesOnAt(line, spans, |spans|, k);
    RawAnchorsAt(spans, lower, |spans|, k);
    if k + 1 < |spans| { TimesOnAt(line, spans, |spans|, k + 1); }
  }

  /** Whenever there is an estimate, it is one nested, ordered time line: it starts with the
      request, each round starts where the one before ends, `start <= llmEnd <= end`, nothing
      passes the request's end, and every observed tool lies between the model call's end and
      the round's end. */
  lemma {:induction false} TimelineIsNested(spans: seq<Span>, lower: int, upper: int, k: nat)
    requires Estimable(spans, lower, upper) && k < |spans|
    ensures var times := Times(spans, lower, upper);
            var t := times[k];
            && lower <= t.start <= t.llmEnd <= t.end <= upper
            && (k == 0 ==> t.start == lower)
            && (k + 1 < |spans| ==> times[k + 1].start == t.end)
            && t.tools == spans[k].tools
            && forall tool <- t.tools :: t.llmEnd <= tool.1.start && tool.1.end <= t.end
  {
    var known := Anchors(spans, lower, upper);
    FilledFills(known, upper);
    RoundOnLine(Filled(known), spans, lower, upper, k);
    assert ToolsInside(Times(spans, lower, upper)[k]);
  }

  /** Interpolation moves no anchor: a model call ends at its earliest observed tool start, a
      fully observed round at its latest tool end, and an unobserved last boundary at the
      request's end. */
  lemma {:induction false} AnchorsAreKept(spans: seq<Span>, lower: int, upper: int, k: nat)
    requires Estimable(spans, lower, upper) && k < |spans|
    ensures var span, t := spans[k], Times(spans, lower, upper)[k];
            && (span.llmEnd.Some? ==> t.llmEnd == span.llmEnd.value)
            && (span.toolsEnd.Some? && span.toolsEnd.value.Some? ==> t.end == span.toolsEnd.value.value)
            && (k == |spans| - 1 && span.LastUnknown() ==> t.end == upper)
  {
    var known := Anchors(spans, lower, upper);
    FilledFills(known, upper);
    RoundOnLine(Filled(known), spans, lower, upper, k);
  }

  /** What the anchors of a round are: the earliest observed tool start, and the latest tool
      end once as many tools are observed as the round has calls. Every observed interval lies
      within the request. */
  lemma {:induction false} SpanMeaning(round: Round, q: Request)
    ensures var span := SpanOf(round, q);
            && (span.llmEnd.Some? <==> span.tools != [])
            && (span.toolsEnd.Some? <==> round.callIds != [])
            && (forall tool <- span.tools :: q.lower <= tool.1.start < tool.1.end <= q.upper)
            && (span.llmEnd.Some? ==> (forall tool <- span.tools :: span.llmEnd.value <= tool.1.start)
                                      && exists tool <- span.tools :: span.llmEnd.value == tool.1.start)
            && (span.toolsEnd.Some? ==> (span.toolsEnd.value.Some? <==> |span.tools| == |round.callIds|))
            && (span.toolsEnd.Some? && |span.tools| == |round.callIds| ==>
                  (forall tool <- span.tools :: tool.1.end <= span.toolsEnd.value.value)
                  && exists tool <- span.tools :: span.toolsEnd.value.value == tool.1.end)
  {
    KnownToolsInside(round.tools, q);
  }

  lemma {:induction false} KnownToolsInside(tools: seq<Tool>, q: Request)
    ensures forall tool <- KnownTools(tools, q) :: q.lower <= tool.1.start < tool.1.end <= q.upper
  {
    if tools != [] {
      var before, last := KnownTools(tools[..|tools| - 1], q), tools[|tools| - 1];
      KnownToolsInside(tools[..|tools| - 1], q);
      var interval := ToolInterval(last, q);
      if interval.Some? { PutKeepsOthers(before, last.callId, interval.value); }
    }
  }

  lemma {:induction false} PutKeepsOthers(m: Intervals, key: string, v: Interval)
    ensures forall e <- Put(m, key, v) :: e in m || e == (key, v)
  {
    if m != [] { PutKeepsOthers(m[1..], key, v); }
  }
}
