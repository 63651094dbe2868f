/** The HTTP flusher: ordinary entries are buffered, posted in batches and put back on failure,
    with any number of posts in flight; Codex batches wait in a queue of their own, are posted one
    at a time in order, and keep their sender waiting until they are accepted or cancelled.

    A stretch of code between two awaits is one step; posts end whenever and however they like. */
module HttpOutput {
  import opened Wrappers
  import opened Seqs

  type Entry = string

  datatype Status = Queued | Accepted | Cancelled

  /** A Codex batch by its number: how its sender's promise stands, and whether a post of it has
      succeeded. */
  datatype Batch = Batch(entries: seq<Entry>, status: Status, posted: bool)

  /** A post of buffered entries. */
  datatype Flight = Flight(entries: seq<Entry>, open: bool)

  /** Where the Codex flush stands. `Exiting` is the time between the end of its loop and the
      `finally` that clears the flush promise. */
  datatype Loop = Idle | Posting(batch: nat) | Exiting

  datatype State = State(
    buffer: seq<Entry>,
    flights: seq<Flight>,
    batches: seq<Batch>,
    queue: seq<nat>,
    loop: Loop,
    stopped: bool)

  const EMPTY := State([], [], [], [], Idle, false)

  // ---------------------------------------------------------------- buffered entries

  function SendStep(s: State, entries: seq<Entry>): State { s.(buffer := s.buffer + entries) }

  function FlushBufferedStep(s: State): State {
    if s.buffer == [] then s else s.(buffer := [], flights := s.flights + [Flight(s.buffer, true)])
  }

  function FlightEndsStep(s: State, f: nat, ok: bool): State
    requires f < |s.flights|
  {
    s.(flights := s.flights[f := s.flights[f].(open := false)],
       buffer := if ok then s.buffer else s.flights[f].entries + s.buffer)
  }

  // ---------------------------------------------------------------- Codex batches

  function Remove(queue: seq<nat>, b: nat): seq<nat> {
    if queue == [] then [] else if queue[0] == b then queue[1..] else [queue[0]] + Remove(queue[1..], b)
  }

  /** The promise settles unless it has. */
  function Settled(batches: seq<Batch>, b: nat, status: Status): seq<Batch>
    requires b < |batches|
  {
    if batches[b].status.Queued? then batches[b := batches[b].(status := status)] else batches
  }

  /** The head of the flush loop: the set is walked in insertion order, and what was walked is gone. */
  function LoopStep(s: State): State {
    s.(loop := if s.queue == [] then Exiting else Posting(s.queue[0]))
  }

  function FlushCodexStep(s: State): State { if s.loop.Idle? then LoopStep(s) else s }

  /** `aborted` says that the sender's signal is aborted already. */
  function EnqueueStep(s: State, entries: seq<Entry>, aborted: bool): State {
    if s.stopped || aborted then s.(batches := s.batches + [Batch(entries, Cancelled, false)])
    else
      FlushCodexStep(s.(batches := s.batches + [Batch(entries, Queued, false)], queue := s.queue + [|s.batches|]))
  }

  function CancelStep(s: State, b: nat): State
    requires b < |s.batches|
  {
    s.(batches := Settled(s.batches, b, Cancelled), queue := Remove(s.queue, b))
  }

  function PostEndsStep(s: State, ok: bool): State
    requires s.loop.Posting? && s.loop.batch < |s.batches|
  {
    var b := s.loop.batch;
    if ok then
      LoopStep(s.(batches := Settled(s.batches[b := s.batches[b].(posted := true)], b, Accepted),
                  queue := Remove(s.queue, b)))
    else if s.batches[b].status.Cancelled? then LoopStep(s)
    else s.(loop := Exiting)
  }

  /** `shutdown` up to its first await: every batch still queued is cancelled. */
  function CancelAll(batches: seq<Batch>): (r: seq<Batch>)
    ensures |r| == |batches|
    ensures forall b :: 0 <= b < |r| ==>
              r[b] == if batches[b].status.Queued? then batches[b].(status := Cancelled) else batches[b]
  {
    Map((b: Batch) => if b.status.Queued? then b.(status := Cancelled) else b, batches)
  }

  function ShutdownStep(s: State): State {
    s.(stopped := true, batches := CancelAll(s.batches), queue := [])
  }

  // ---------------------------------------------------------------- the object

  class HttpFlusher {
    var buffer: seq<Entry>
    var flights: seq<Flight>
    var batches: seq<Batch>
    var queue: seq<nat>
    var loop: Loop
    var stopped: bool

    ghost function Value(): State
      reads this
    {
      State(buffer, flights, batches, queue, loop, stopped)
    }

    constructor ()
      ensures Value() == EMPTY
    {
      buffer, flights, batches, queue, loop, stopped := [], [], [], [], Idle, false;
    }

    method Send(entries: seq<Entry>)
      modifies this`buffer
      ensures Value() == SendStep(old(Value()), entries)
    {
      buffer := buffer + entries;
    }

    method FlushBuffered()
      modifies this`buffer, this`flights
      ensures Value() == FlushBufferedStep(old(Value()))
    {
      if |buffer| == 0 { return; }
      var batch := buffer;
      buffer := [];
      flights := flights + [Flight(batch, true)];
    }

    method FlightEnds(f: nat, ok: bool)
      requires f < |flights| && flights[f].open
      modifies this`buffer, this`flights
      ensures Value() == FlightEndsStep(old(Value()), f, ok)
    {
      var batch := flights[f].entries;
      flights := flights[f := Flight(batch, false)];
      if !ok { buffer := batch + buffer; }
    }

    method EnqueueCodex(entries: seq<Entry>, aborted: bool)
      modifies this
      ensures Value() == EnqueueStep(old(Value()), entries, aborted)
    {
      if stopped || aborted {
        batches := batches + [Batch(entries, Cancelled, false)];
        return;
      }
      queue := queue + [|batches|];
      batches := batches + [Batch(entries, Queued, false)];
      FlushCodex();
    }

    method FlushCodex()
      modifies this`loop
      ensures Value() == FlushCodexStep(old(Value()))
    {
      if loop == Idle { Walk(); }
    }

    /** On to the first batch left in the set, or out of the loop. */
    method Walk()
      modifies this`loop
      ensures Value() == LoopStep(old(Value()))
    {
      loop := if |queue| == 0 then Exiting else Posting(queue[0]);
    }

    method Cancel(b: nat)
      requires b < |batches|
      modifies this`batches, this`queue
      ensures Value() == CancelStep(old(Value()), b)
    {
      Drop(b);
      if batches[b].status == Queued { batches := batches[b := batches[b].(status := Cancelled)]; }
    }

    method Accept(b: nat)
      requires b < |batches|
      modifies this`batches, this`queue
      ensures batches == Settled(old(batches), b, Accepted) && queue == Remove(old(queue), b)
    {
      Drop(b);
      if batches[b].status == Queued { batches := batches[b := batches[b].(status := Accepted)]; }
    }

    /** `codexBatches.delete`. */
    method Drop(b: nat)
      modifies this`queue
      ensures queue == Remove(old(queue), b)
    {
      var i := 0;
      while i < |queue| && queue[i] != b
        invariant 0 <= i <= |queue|
        invariant forall k :: 0 <= k < i ==> queue[k] != b
      {
        i := i + 1;
      }
      RemoveFirst(queue, b, i);
      if i < |queue| { queue := queue[..i] + queue[i + 1..]; }
    }

    method PostEnds(ok: bool)
      requires loop.Posting? && loop.batch < |batches|
      modifies this
      ensures Value() == PostEndsStep(old(Value()), ok)
    {
      var b := loop.batch;
      if ok {
        batches := batches[b := batches[b].(posted := true)];
        Accept(b);
        Walk();
      } else if batches[b].status == Cancelled {
        Walk();
      } else {
        loop := Exiting;
      }
    }

    /** `shutdown` up to its first await. */
    method Shutdown()
      requires Ordered(Value())
      modifies this
      ensures Value() == ShutdownStep(old(Value()))
    {
      stopped := true;
      while |queue| > 0
        invariant Ordered(Value()) && stopped && loop == old(loop)
        invariant buffer == old(buffer) && flights == old(flights)
        invariant CancelAll(batches) == CancelAll(old(batches))
        decreases |queue|
      {
        ghost var before := Value();
        assert queue[0] in queue;
        OrderedSettle(before, queue[0], Cancelled);
        Cancel(queue[0]);
      }
      assert CancelAll(batches) == batches;
    }

    method Finally()
      modifies this`loop
      ensures Value() == old(Value()).(loop := Idle)
    {
      loop := Idle;
    }
  }

  lemma {:induction false} RemoveFirst(queue: seq<nat>, b: nat, i: nat)
    requires i <= |queue| && (forall k :: 0 <= k < i ==> queue[k] != b) && (i < |queue| ==> queue[i] == b)
    ensures Remove(queue, b) == if i < |queue| then queue[..i] + queue[i + 1..] else queue
  {
    if i > 0 {
      RemoveFirst(queue[1..], b, i - 1);
      RemoveShift(queue, i);
    } else if queue != [] {
      assert queue[..0] + queue[1..] == queue[1..];
    }
  }

  lemma {:induction false} RemoveShift(queue: seq<nat>, i: nat)
    requires 0 < i <= |queue|
    ensures queue == [queue[0]] + queue[1..]
    ensures i < |queue| ==> [queue[0]] + (queue[1..][..i - 1] + queue[1..][i..]) == queue[..i] + queue[i + 1..]
  {
  }

  // ---------------------------------------------------------------- the whole system

  /** The flusher with its history: `sent` and `delivered` are the ordinary entries given to it and
      posted with success, in that order. */
  datatype World = World(s: State, sent: seq<Entry>, delivered: seq<Entry>)

  datatype Step =
    | Send(entries: seq<Entry>)
    | FlushBuffered
    | FlightEnds(f: nat, ok: bool)
    | Enqueue(entries: seq<Entry>, aborted: bool)
    | FlushCodex
    | Cancel(b: nat)
    | PostEnds(ok: bool)
    | FinallyRuns
    | Shutdown
    | Start

  /** One step; a step that is not enabled changes nothing. */
  function Next(w: World, step: Step): World {
    match step
    case Send(entries) => w.(s := SendStep(w.s, entries), sent := w.sent + entries)
    case FlushBuffered => w.(s := FlushBufferedStep(w.s))
    case FlightEnds(f, ok) =>
      if f < |w.s.flights| && w.s.flights[f].open
      then w.(s := FlightEndsStep(w.s, f, ok),
              delivered := if ok then w.delivered + w.s.flights[f].entries else w.delivered)
      else w
    case Enqueue(entries, aborted) => w.(s := EnqueueStep(w.s, entries, aborted))
    case FlushCodex => w.(s := FlushCodexStep(w.s))
    case Cancel(b) => if b < |w.s.batches| && w.s.batches[b].status.Queued? then w.(s := CancelStep(w.s, b)) else w
    case PostEnds(ok) =>
      if w.s.loop.Posting? && w.s.loop.batch < |w.s.batches| then w.(s := PostEndsStep(w.s, ok)) else w
    case FinallyRuns => if w.s.loop.Exiting? then w.(s := w.s.(loop := Idle)) else w
    case Shutdown => w.(s := ShutdownStep(w.s))
    case Start => w.(s := w.s.(stopped := false))
  }

  function Run(w: World, steps: seq<Step>): World
    decreases |steps|
  {
    if steps == [] then w else Run(Next(w, steps[0]), steps[1..])
  }

  const INITIAL := World(EMPTY, [], [])

  // ---------------------------------------------------------------- nothing is lost or doubled

  function InFlight(flights: seq<Flight>): multiset<Entry> {
    if flights == [] then multiset{}
    else (if flights[0].open then multiset(flights[0].entries) else multiset{}) + InFlight(flights[1..])
  }

  predicate Conserved(w: World) {
    multiset(w.s.buffer) + InFlight(w.s.flights) + multiset(w.delivered) == multiset(w.sent)
  }

  lemma {:induction false} InFlightSnoc(flights: seq<Flight>, f: Flight)
    requires f.open
    ensures InFlight(flights + [f]) == InFlight(flights) + multiset(f.entries)
  {
    if flights == [] {
      assert [f][1..] == [];
    } else {
      assert (flights + [f])[1..] == flights[1..] + [f];
      InFlightSnoc(flights[1..], f);
    }
  }

  lemma {:induction false} InFlightClose(flights: seq<Flight>, f: nat)
    requires f < |flights| && flights[f].open
    ensures InFlight(flights) == InFlight(flights[f := flights[f].(open := false)]) + multiset(flights[f].entries)
  {
    var closed := flights[f := flights[f].(open := false)];
    if f == 0 {
      assert closed[1..] == flights[1..];
    } else {
      InFlightClose(flights[1..], f - 1);
      assert closed[1..] == flights[1..][f - 1 := flights[f].(open := false)];
    }
  }

  lemma {:induction false} ConservedFlight(w: World, f: nat, ok: bool)
    requires Conserved(w) && f < |w.s.flights| && w.s.flights[f].open
    ensures Conserved(Next(w, FlightEnds(f, ok)))
  {
    var batch := w.s.flights[f].entries;
    InFlightClose(w.s.flights, f);
    assert multiset(batch + w.s.buffer) == multiset(batch) + multiset(w.s.buffer);
    assert multiset(w.delivered + batch) == multiset(w.delivered) + multiset(batch);
  }

  lemma {:induction false} ConservedNext(w: World, step: Step)
    requires Conserved(w)
    ensures Conserved(Next(w, step))
  {
    match step
    case Send(entries) =>
      assert multiset(w.s.buffer + entries) == multiset(w.s.buffer) + multiset(entries);
      assert multiset(w.sent + entries) == multiset(w.sent) + multiset(entries);
    case FlushBuffered => InFlightSnoc(w.s.flights, Flight(w.s.buffer, true));
    case FlightEnds(f, ok) => if f < |w.s.flights| && w.s.flights[f].open { ConservedFlight(w, f, ok); }
    case _ => SameBuffer(w, step);
  }

  lemma {:induction false} SameBuffer(w: World, step: Step)
    requires !step.Send? && !step.FlushBuffered? && !step.FlightEnds?
    ensures Next(w, step).s.buffer == w.s.buffer && Next(w, step).s.flights == w.s.flights
    ensures Next(w, step).sent == w.sent && Next(w, step).delivered == w.delivered
  {
  }

  /** However posts overlap and fail: what is buffered, in flight and delivered is what was sent. */
  lemma {:induction false} EntriesAreConserved(w: World, steps: seq<Step>)
    requires Conserved(w)
    ensures Conserved(Run(w, steps))
    decreases |steps|
  {
    if steps != [] {
      ConservedNext(w, steps[0]);
      EntriesAreConserved(Next(w, steps[0]), steps[1..]);
    }
  }

  /** A flush takes everything that is buffered into one post, and a post that succeeds delivers
      it; with nothing buffered, nothing is posted. */
  lemma {:induction false} FlushDelivers(w: World)
    ensures w.s.buffer == [] ==> Next(w, FlushBuffered) == w
    ensures w.s.buffer != [] ==>
              var flying := Next(w, FlushBuffered);
              var f := |w.s.flights|;
              && flying.s.buffer == [] && |flying.s.flights| == f + 1
              && Next(flying, FlightEnds(f, true)).delivered == w.delivered + w.s.buffer
              && Next(flying, FlightEnds(f, false)).s.buffer == w.s.buffer
  {
  }

  // ---------------------------------------------------------------- in which order

  /** What is in flight, post after post. */
  function Flying(flights: seq<Flight>): seq<Entry> {
    if flights == [] then [] else (if flights[0].open then flights[0].entries else []) + Flying(flights[1..])
  }

  predicate OnlyOpen(flights: seq<Flight>, f: nat) {
    forall g :: 0 <= g < |flights| && flights[g].open ==> g == f
  }

  predicate NoneOpen(flights: seq<Flight>) { forall g :: 0 <= g < |flights| ==> !flights[g].open }

  /** No post of buffered entries starts while another is under way. */
  predicate Alone(w: World, steps: seq<Step>)
    decreases |steps|
  {
    steps == [] || ((steps[0].FlushBuffered? ==> NoneOpen(w.s.flights)) && Alone(Next(w, steps[0]), steps[1..]))
  }

  ghost predicate InOrder(w: World) {
    && (exists f: nat :: OnlyOpen(w.s.flights, f))
    && w.delivered + Flying(w.s.flights) + w.s.buffer == w.sent
  }

  lemma {:induction false} FlyingNone(flights: seq<Flight>)
    requires NoneOpen(flights)
    ensures Flying(flights) == []
  {
    if flights != [] { FlyingNone(flights[1..]); }
  }

  lemma {:induction false} FlyingOne(flights: seq<Flight>, f: nat)
    requires f < |flights| && flights[f].open && OnlyOpen(flights, f)
    ensures Flying(flights) == flights[f].entries
  {
    if f == 0 {
      assert NoneOpen(flights[1..]);
      FlyingNone(flights[1..]);
    } else {
      assert OnlyOpen(flights[1..], f - 1);
      FlyingOne(flights[1..], f - 1);
    }
  }

  lemma {:induction false} InOrderFlush(w: World)
    requires InOrder(w) && NoneOpen(w.s.flights)
    ensures InOrder(Next(w, FlushBuffered))
  {
    if w.s.buffer != [] {
      var v := Next(w, FlushBuffered).s.flights;
      FlyingNone(w.s.flights);
      assert OnlyOpen(v, |w.s.flights|);
      FlyingOne(v, |w.s.flights|);
    }
  }

  lemma {:induction false} InOrderEnd(w: World, f: nat, ok: bool)
    requires InOrder(w) && f < |w.s.flights| && w.s.flights[f].open
    ensures InOrder(Next(w, FlightEnds(f, ok)))
  {
    var v := Next(w, FlightEnds(f, ok));
    var g: nat :| OnlyOpen(w.s.flights, g);
    FlyingOne(w.s.flights, f);
    assert NoneOpen(v.s.flights) && OnlyOpen(v.s.flights, f);
    FlyingNone(v.s.flights);
  }

  lemma {:induction false} InOrderNext(w: World, step: Step)
    requires InOrder(w) && (step.FlushBuffered? ==> NoneOpen(w.s.flights))
    ensures InOrder(Next(w, step))
  {
    match step
    case Send(entries) =>
      AppendAssociates(w.delivered + Flying(w.s.flights), w.s.buffer, entries);
    case FlushBuffered => InOrderFlush(w);
    case FlightEnds(f, ok) => if f < |w.s.flights| && w.s.flights[f].open { InOrderEnd(w, f, ok); }
    case _ => SameBuffer(w, step);
  }

  /** As long as posts do not overlap, entries are delivered in the order in which they were sent,
      failures included. */
  lemma {:induction false} DeliveredInOrder(w: World, steps: seq<Step>)
    requires InOrder(w) && Alone(w, steps)
    ensures InOrder(Run(w, steps)) && Run(w, steps).delivered <= Run(w, steps).sent
    decreases |steps|
  {
    if steps != [] {
      InOrderNext(w, steps[0]);
      DeliveredInOrder(Next(w, steps[0]), steps[1..]);
    }
  }

  // ---------------------------------------------------------------- order and acceptance

  /** The queue holds exactly the batches not settled, in the order they came. */
  predicate Ordered(s: State) {
    && Ascending(s.queue)
    && (forall i :: 0 <= i < |s.queue| ==> s.queue[i] < |s.batches|)
    && (forall b: nat :: b < |s.batches| ==> (s.batches[b].status.Queued? <==> b in s.queue))
  }

  /** The batch being posted is the first of the queue, unless it was cancelled meanwhile; what
      came before an accepted batch is settled; what is accepted was posted. */
  predicate Fair(s: State) {
    && Ordered(s)
    && (s.loop.Posting? ==>
          && s.loop.batch < |s.batches|
          && !s.batches[s.loop.batch].status.Accepted?
          && (s.batches[s.loop.batch].status.Queued? ==> s.queue[0] == s.loop.batch))
    && (forall a: nat, b: nat :: a < b < |s.batches| && s.batches[b].status.Accepted? ==> !s.batches[a].status.Queued?)
    && (forall b: nat :: b < |s.batches| && s.batches[b].status.Accepted? ==> s.batches[b].posted)
  }

  predicate Ascending(queue: seq<nat>) { forall i, k :: 0 <= i < k < |queue| ==> queue[i] < queue[k] }

  lemma {:induction false} RemoveMeans(queue: seq<nat>, b: nat)
    requires Ascending(queue)
    ensures Ascending(Remove(queue, b))
    ensures forall x :: x in Remove(queue, b) <==> x in queue && x != b
    ensures queue != [] && queue[0] != b ==> Remove(queue, b) != [] && Remove(queue, b)[0] == queue[0]
  {
    if queue != [] {
      assert queue == [queue[0]] + queue[1..];
      RemoveMeans(queue[1..], b);
      var rest := Remove(queue[1..], b);
      forall k | 0 <= k < |rest| ensures queue[0] < rest[k] {
        assert rest[k] in queue[1..];
      }
    }
  }

  function Settle(s: State, b: nat, status: Status): State
    requires b < |s.batches|
  {
    s.(batches := Settled(s.batches, b, status), queue := Remove(s.queue, b))
  }

  lemma {:induction false} OrderedSettle(s: State, b: nat, status: Status)
    requires Ordered(s) && b < |s.batches| && !status.Queued?
    ensures Ordered(Settle(s, b, status))
  {
    RemoveMeans(s.queue, b);
    var v := Settle(s, b, status);
    forall i | 0 <= i < |v.queue| ensures v.queue[i] < |v.batches| {
      assert v.queue[i] in v.queue;
    }
  }

  lemma {:induction false} FairCancel(s: State, b: nat)
    requires Fair(s) && b < |s.batches|
    ensures Fair(CancelStep(s, b))
  {
    RemoveMeans(s.queue, b);
    OrderedSettle(s, b, Cancelled);
    assert CancelStep(s, b) == Settle(s, b, Cancelled);
    if s.loop.Posting? && s.batches[s.loop.batch].status.Queued? { assert s.loop.batch in s.queue; }
  }

  lemma {:induction false} FairLoop(s: State)
    requires Fair(s)
    ensures Fair(LoopStep(s))
  {
    if s.queue != [] { assert s.queue[0] in s.queue; }
  }

  lemma {:induction false} FirstIsLeast(queue: seq<nat>, a: nat)
    requires Ascending(queue) && queue != [] && a < queue[0]
    ensures a !in queue
  {
    forall i | 0 <= i < |queue| ensures queue[i] != a {
      assert queue[0] <= queue[i];
    }
  }

  lemma {:induction false} FairAccept(s: State)
    requires Fair(s) && s.loop.Posting?
    ensures Fair(PostEndsStep(s, true))
  {
    var b := s.loop.batch;
    var posted := s.(batches := s.batches[b := s.batches[b].(posted := true)], loop := Idle);
    assert Fair(posted);
    var v := Settle(posted, b, Accepted);
    RemoveMeans(s.queue, b);
    OrderedSettle(posted, b, Accepted);
    if s.batches[b].status.Queued? {
      forall a: nat | a < b ensures !v.batches[a].status.Queued? { FirstIsLeast(s.queue, a); }
    }
    FairLoop(v);
    assert PostEndsStep(s, true) == LoopStep(v);
  }

  lemma {:induction false} FairEnqueue(s: State, entries: seq<Entry>, aborted: bool)
    requires Fair(s)
    ensures Fair(EnqueueStep(s, entries, aborted))
  {
    if !s.stopped && !aborted {
      var v := s.(batches := s.batches + [Batch(entries, Queued, false)], queue := s.queue + [|s.batches|]);
      assert Fair(v) by {
        forall b: nat | b < |v.batches| ensures v.batches[b].status.Queued? <==> b in v.queue {
          if b < |s.batches| { assert v.batches[b] == s.batches[b]; }
        }
      }
      FairLoop(v);
    }
  }

  lemma {:induction false} FairNext(w: World, step: Step)
    requires Fair(w.s)
    ensures Fair(Next(w, step).s)
  {
    match step
    case Enqueue(entries, aborted) => FairEnqueue(w.s, entries, aborted);
    case FlushCodex => FairLoop(w.s);
    case Cancel(b) => if b < |w.s.batches| { FairCancel(w.s, b); }
    case PostEnds(ok) =>
      if w.s.loop.Posting? {
        if ok { FairAccept(w.s); } else { FairLoop(w.s); }
      }
    case Shutdown =>
    case _ =>
  }

  lemma {:induction false} FairRun(w: World, steps: seq<Step>)
    requires Fair(w.s)
    ensures Fair(Run(w, steps).s)
    decreases |steps|
  {
    if steps != [] {
      FairNext(w, steps[0]);
      FairRun(Next(w, steps[0]), steps[1..]);
    }
  }

  /** In every run a Codex batch is accepted only after a successful post of it, and only when
      every batch queued before it has been accepted or cancelled. */
  lemma {:induction false} AcceptedInOrder(steps: seq<Step>, a: nat, b: nat)
    requires a < b < |Run(INITIAL, steps).s.batches|
    ensures var batches := Run(INITIAL, steps).s.batches;
            batches[b].status.Accepted? ==> batches[b].posted && !batches[a].status.Queued?
  {
    FairRun(INITIAL, steps);
  }

  /** A promise that has settled stays as it is, and a batch its own entries. */
  lemma {:induction false} SettledOnce(w: World, steps: seq<Step>, b: nat)
    requires b < |w.s.batches|
    ensures var v := Run(w, steps).s.batches;
            && b < |v| && v[b].entries == w.s.batches[b].entries
            && (!w.s.batches[b].status.Queued? ==> v[b].status == w.s.batches[b].status)
    decreases |steps|
  {
    if steps != [] {
      SettledStep(w, steps[0], b);
      SettledOnce(Next(w, steps[0]), steps[1..], b);
    }
  }

  lemma {:induction false} SettledStep(w: World, step: Step, b: nat)
    requires b < |w.s.batches|
    ensures var v := Next(w, step).s.batches;
            && b < |v| && v[b].entries == w.s.batches[b].entries
            && (!w.s.batches[b].status.Queued? ==> v[b].status == w.s.batches[b].status)
  {
  }

  /** After a shutdown, and short of another start, no batch is ever left waiting: those that
      wait are rejected, and so is whatever comes. */
  lemma {:induction false} ShutdownLeavesNoneWaiting(w: World, steps: seq<Step>)
    requires Fair(w.s) && Start !in steps
    ensures var v := Run(Next(w, Shutdown), steps).s;
            v.stopped && v.queue == [] && forall b: nat :: b < |v.batches| ==> !v.batches[b].status.Queued?
  {
    FairNext(w, Shutdown);
    StoppedStaysEmpty(Next(w, Shutdown), steps);
  }

  lemma {:induction false} StoppedStaysEmpty(w: World, steps: seq<Step>)
    requires w.s.stopped && w.s.queue == [] && Fair(w.s) && Start !in steps
    ensures var v := Run(w, steps).s;
            v.stopped && v.queue == [] && forall b: nat :: b < |v.batches| ==> !v.batches[b].status.Queued?
    decreases |steps|
  {
    if steps != [] {
      FairNext(w, steps[0]);
      assert steps[0] != Start;
      StoppedStaysEmpty(Next(w, steps[0]), steps[1..]);
    }
  }

  /** A batch that comes to a stopped flusher, or whose signal is aborted, is rejected and never
      posted. */
  lemma {:induction false} RejectedAtOnce(w: World, entries: seq<Entry>, aborted: bool, steps: seq<Step>)
    requires Fair(w.s) && (w.s.stopped || aborted)
    ensures var b, v := |w.s.batches|, Run(Next(w, Enqueue(entries, aborted)), steps).s.batches;
            b < |v| && v[b] == Batch(entries, Cancelled, false)
  {
    var b, v := |w.s.batches|, Next(w, Enqueue(entries, aborted));
    FairNext(w, Enqueue(entries, aborted));
    NeverPosted(v, steps, b);
  }

  lemma {:induction false} CancelledStep(w: World, step: Step, b: nat)
    requires b < |w.s.batches| && w.s.batches[b].status.Cancelled? && w.s.loop != Posting(b) && b !in w.s.queue
    ensures var v := Next(w, step).s;
            && b < |v.batches| && v.batches[b] == w.s.batches[b]
            && (v.queue != [] && v.loop == Posting(b) ==> b in v.queue)
  {
  }

  lemma {:induction false} NeverPosted(w: World, steps: seq<Step>, b: nat)
    requires b < |w.s.batches| && w.s.batches[b].status.Cancelled? && w.s.loop != Posting(b)
    requires Fair(w.s)
    ensures b < |Run(w, steps).s.batches| && Run(w, steps).s.batches[b] == w.s.batches[b]
    decreases |steps|
  {
    if steps != [] {
      var v := Next(w, steps[0]);
      FairNext(w, steps[0]);
      CancelledStep(w, steps[0], b);
      assert b !in v.s.queue;
      NeverPosted(v, steps[1..], b);
    }
  }

  // ---------------------------------------------------------------- what a flush settles

  /** From here to the moment when the flush under way has come to rest, and no further. */
  predicate Rests(w: World, steps: seq<Step>)
    decreases |steps|
  {
    if steps == [] then w.s.loop.Idle? else !w.s.loop.Idle? && Rests(Next(w, steps[0]), steps[1..])
  }

  /** A post of a batch that nobody cancelled fails: the flush ends, whatever is still queued. */
  predicate EndsOnFailure(s: State, step: Step) {
    && step == PostEnds(false) && s.loop.Posting?
    && s.loop.batch < |s.batches| && !s.batches[s.loop.batch].status.Cancelled?
  }

  /** The batch on whose failed post the flush ends, if it ends so. */
  function FailedOn(w: World, steps: seq<Step>): Option<nat>
    decreases |steps|
  {
    if steps == [] then None
    else if EndsOnFailure(w.s, steps[0]) then Some(w.s.loop.batch)
    else FailedOn(Next(w, steps[0]), steps[1..])
  }

  predicate GivenUp(steps: seq<Step>, b: nat) { Shutdown in steps || Cancel(b) in steps }

  lemma {:induction false} GivenUpStep(steps: seq<Step>, b: nat)
    requires steps != []
    ensures GivenUp(steps, b) <==> steps[0] == Shutdown || steps[0] == Cancel(b) || GivenUp(steps[1..], b)
  {
    assert steps == [steps[0]] + steps[1..];
  }

  /** A flush that does not end on a failure has visited every batch: none is left waiting. */
  lemma {:induction false} LeavingTheLoopVisitsAll(w: World, step: Step, b: nat)
    requires Fair(w.s) && w.s.loop.Posting? && Next(w, step).s.loop.Exiting? && !EndsOnFailure(w.s, step)
    requires b < |w.s.batches|
    ensures Next(w, step).s.queue == [] && !Next(w, step).s.batches[b].status.Queued?
  {
    FairNext(w, step);
    SettledStep(w, step, b);
  }

  /** What was accepted before is not what a flush fails on. */
  lemma {:induction false} FailsBeyondAccepted(w: World, steps: seq<Step>, b: nat)
    requires Fair(w.s) && b < |w.s.batches| && w.s.batches[b].status.Accepted?
    ensures FailedOn(w, steps).Some? ==> b < FailedOn(w, steps).value
    decreases |steps|
  {
    if steps != [] && !EndsOnFailure(w.s, steps[0]) {
      FairNext(w, steps[0]);
      SettledStep(w, steps[0], b);
      FailsBeyondAccepted(Next(w, steps[0]), steps[1..], b);
    }
  }

  /** One step while a batch waits: giving it up settles it. Otherwise a flush that is posting
      accepts it, goes on posting, or ends on a failed post of it or of one before it. */
  lemma {:induction false} WaitingStep(w: World, step: Step, b: nat)
    requires Fair(w.s) && b < |w.s.batches| && w.s.batches[b].status.Queued?
    ensures var v := Next(w, step).s;
            && Fair(v) && b < |v.batches|
            && (step == Shutdown || step == Cancel(b) ==> !v.batches[b].status.Queued?)
            && (!v.batches[b].status.Queued? ==>
                  step == Shutdown || step == Cancel(b) || (v.batches[b].status.Accepted? && w.s.loop.Posting?))
            && (w.s.loop.Posting? && v.batches[b].status.Queued? ==>
                  if EndsOnFailure(w.s, step) then v.loop.Exiting? else v.loop.Posting?)
            && (EndsOnFailure(w.s, step) ==> v.batches[b].status.Queued? && w.s.loop.batch <= b)
            && (w.s.loop.Exiting? ==> !v.loop.Posting?)
  {
    FairNext(w, step);
    SettledStep(w, step, b);
    assert b in w.s.queue;
    if EndsOnFailure(w.s, step) && b < w.s.queue[0] { FirstIsLeast(w.s.queue, b); }
  }

  /** In the window only the sender or a shutdown settles a batch. */
  lemma {:induction false} WindowSettlesNothing(w: World, steps: seq<Step>, b: nat)
    requires Fair(w.s) && b < |w.s.batches| && w.s.batches[b].status.Queued?
    requires !w.s.loop.Posting? && Rests(w, steps)
    ensures b < |Run(w, steps).s.batches|
    ensures Run(w, steps).s.batches[b].status.Queued? <==> !GivenUp(steps, b)
    decreases |steps|
  {
    if steps != [] {
      var v := Next(w, steps[0]);
      WaitingStep(w, steps[0], b);
      SettledOnce(v, steps[1..], b);
      GivenUpStep(steps, b);
      if v.s.batches[b].status.Queued? { WindowSettlesNothing(v, steps[1..], b); }
    }
  }

  /** A batch that waits while a flush is posting is left waiting by that flush exactly when the
      flush ends on a failed post of that batch or of one before it. */
  lemma {:induction false} FlushLeavesIff(w: World, steps: seq<Step>, b: nat)
    requires Fair(w.s) && b < |w.s.batches| && w.s.batches[b].status.Queued?
    requires w.s.loop.Posting? && Rests(w, steps)
    ensures b < |Run(w, steps).s.batches|
    ensures var failed := FailedOn(w, steps);
            Run(w, steps).s.batches[b].status.Queued? <==>
              !GivenUp(steps, b) && failed.Some? && failed.value <= b
    decreases |steps|
  {
    var v := Next(w, steps[0]);
    WaitingStep(w, steps[0], b);
    SettledOnce(v, steps[1..], b);
    GivenUpStep(steps, b);
    if EndsOnFailure(w.s, steps[0]) {
      WindowSettlesNothing(v, steps[1..], b);
    } else if v.s.batches[b].status.Queued? {
      FlushLeavesIff(v, steps[1..], b);
    } else if v.s.batches[b].status.Accepted? {
      FailsBeyondAccepted(v, steps[1..], b);
    }
  }

  lemma {:induction false} CancelledOnlyByGivingUp(w: World, steps: seq<Step>, b: nat)
    requires b < |w.s.batches| && !w.s.batches[b].status.Cancelled? && !GivenUp(steps, b)
    ensures b < |Run(w, steps).s.batches| && !Run(w, steps).s.batches[b].status.Cancelled?
    decreases |steps|
  {
    if steps != [] {
      GivenUpStep(steps, b);
      SettledStep(w, steps[0], b);
      CancelledOnlyByGivingUp(Next(w, steps[0]), steps[1..], b);
    }
  }

  /** A batch is queued. Once the flush that was under way then, or that it started, has come to
      rest, the batch is settled if and only if it was given up, or else came before the window
      between the end of the flush loop and its `finally` and the flush did not end on a failed
      post of this batch or one before it. If it was not given up, settled means accepted. */
  lemma {:induction false} SettledByTheFlushIff(w: World, entries: seq<Entry>, steps: seq<Step>)
    requires Fair(w.s) && !w.s.stopped && Rests(Next(w, Enqueue(entries, false)), steps)
    ensures var queued, b := Next(w, Enqueue(entries, false)), |w.s.batches|;
            var v, failed := Run(queued, steps).s, FailedOn(queued, steps);
            && b < |v.batches|
            && (!v.batches[b].status.Queued? <==>
                  GivenUp(steps, b) || (!w.s.loop.Exiting? && !(failed.Some? && failed.value <= b)))
            && (!GivenUp(steps, b) && !v.batches[b].status.Queued? ==> v.batches[b].status.Accepted?)
  {
    var queued, b := Next(w, Enqueue(entries, false)), |w.s.batches|;
    FairNext(w, Enqueue(entries, false));
    if w.s.loop.Exiting? { WindowSettlesNothing(queued, steps, b); } else { FlushLeavesIff(queued, steps, b); }
    if !GivenUp(steps, b) { CancelledOnlyByGivingUp(queued, steps, b); }
  }

  /** Batch 1 still waits, and no flush runs. */
  predicate LeftWaiting(s: State) {
    |s.batches| == 2 && s.loop.Idle? && s.batches[1] == Batch(["b"], Queued, false)
  }

  /** The two ways to be left waiting: the second batch comes in the window, or while the post of
      the first is failing. */
  lemma {:induction false} ABatchCanBeLeft()
    ensures LeftWaiting(Run(INITIAL, [Enqueue(["a"], false), PostEnds(true), Enqueue(["b"], false), FinallyRuns]).s)
    ensures LeftWaiting(Run(INITIAL, [Enqueue(["a"], false), Enqueue(["b"], false), PostEnds(false), FinallyRuns]).s)
  {
    var one, two := Enqueue(["a"], false), Enqueue(["b"], false);
    FourSteps(INITIAL, one, PostEnds(true), two, FinallyRuns);
    FourSteps(INITIAL, one, two, PostEnds(false), FinallyRuns);
  }

  lemma {:induction false} FourSteps(w: World, a: Step, b: Step, c: Step, d: Step)
    ensures Run(w, [a, b, c, d]) == Next(Next(Next(Next(w, a), b), c), d)
  {
    var w1 := Next(w, a);
    var w2 := Next(w1, b);
    var w3 := Next(w2, c);
    assert [d][1..] == [] && Run(w3, [d]) == Run(Next(w3, d), []);
    assert [c, d][1..] == [d] && Run(w2, [c, d]) == Run(w3, [d]);
    assert [b, c, d][1..] == [c, d] && Run(w1, [b, c, d]) == Run(w2, [c, d]);
    assert [a, b, c, d][1..] == [b, c, d];
  }
}
