/** Log streaming from the container's lines to the caller's output channel. */
module Logs {
  import opened Common

  const CHUNK := 50
  type Line = string
  type Chunk = seq<Line>

  // What the agent's select sees, in the order it sees it.  `ok` is the outcome of the send that a
  // flush in this iteration performs.
  datatype Event =
    | Read(line: Line, ok: bool)
    | Closed(ok: bool)             // the line channel was closed
    | Cancelled(ok: bool)          // the stream's context is done
    | Ended(ok: bool, error: Option<string>, live: bool)  // the log reader returned; the context is live

  // ---------------------------------------------------------------- the agent's batching loop

  // The lines the loop reads: those before the channel closes or the loop returns.
  function LinesRead(events: seq<Event>): seq<Line> {
    if events == [] || !events[0].Read? then [] else [events[0].line] + LinesRead(events[1..])
  }

  // The chunks sent, starting with `entries` in the buffer.
  function Batches(entries: seq<Line>, events: seq<Event>): seq<Chunk>
    decreases |events|
  {
    if events == [] then []
    else if events[0].Read? then
      var more := entries + [events[0].line];
      if |more| < CHUNK then Batches(more, events[1..])
      else if events[0].ok then [more] + Batches([], events[1..]) else []
    else if entries != [] && events[0].ok then [entries] else []
  }

  // The error reported after the last flush: that of a reader that failed while the stream was live.
  // Once the channel has closed there is nothing left to read.
  function Reported(entries: seq<Line>, events: seq<Event>, open: bool): Option<string>
    decreases |events|
  {
    if events == [] then None
    else
      match events[0]
      case Read(line, ok) =>
        if !open then Reported(entries, events[1..], false)
        else if |entries| + 1 < CHUNK then Reported(entries + [line], events[1..], true)
        else if ok then Reported([], events[1..], true) else None
      case Closed(_) => Reported([], events[1..], false)
      case Cancelled(_) => None
      case Ended(_, error, live) => if live then error else None
  }

  // runLogStream: entries collect in a buffer that is flushed when it holds 50 lines, when the
  // channel closes, when the context is done and when the reader returns.
  method RunLogStream(events: seq<Event>) returns (chunks: seq<Chunk>, error: Option<string>)
    ensures chunks == Batches([], events) && error == Reported([], events, true)
  {
    chunks, error := [], None;
    var entries: seq<Line> := [];
    var open := true;
    var i := 0;
    while i < |events|
      invariant 0 <= i <= |events| && (!open ==> entries == [])
      invariant chunks + (if open then Batches(entries, events[i..]) else []) == Batches([], events)
      invariant Reported(entries, events[i..], open) == Reported([], events, true) && error == None
    {
      assert events[i..][0] == events[i] && events[i..][1..] == events[i + 1..];
      match events[i] {
        case Read(line, ok) =>
          if open {
            entries := entries + [line];
            if |entries| >= CHUNK {
              if !ok {
                return;
              }
              chunks := chunks + [entries];
              entries := [];
            }
          }
        case Closed(ok) =>
          if entries != [] && ok {
            chunks := chunks + [entries];
          }
          entries, open := [], false;
        case Cancelled(ok) =>
          if entries != [] && ok {
            chunks := chunks + [entries];
          }
          return;
        case Ended(ok, failure, live) =>
          if entries != [] && ok {
            chunks := chunks + [entries];
          }
          if failure.Some? && live {
            error := failure;
          }
          return;
      }
      i := i + 1;
    }
  }

  predicate AllSent(events: seq<Event>) {
    forall i :: 0 <= i < |events| ==> events[i].ok
  }

  // One more line: a full buffer is sent as a chunk.
  lemma BatchesRead(entries: seq<Line>, events: seq<Event>)
    requires events != [] && events[0].Read?
    ensures var more := entries + [events[0].line];
            && entries + LinesRead(events) == more + LinesRead(events[1..])
            && Batches(entries, events) ==
                 if |more| < CHUNK then Batches(more, events[1..])
                 else if events[0].ok then [more] + Batches([], events[1..]) else []
  {
  }

  lemma FlattenCons(x: Chunk, rest: seq<Chunk>)
    ensures Flatten([x] + rest) == x + Flatten(rest)
  {
    assert ([x] + rest)[1..] == rest;
  }

  lemma {:induction false} BatchesPrefix(entries: seq<Line>, events: seq<Event>)
    ensures Flatten(Batches(entries, events)) <= entries + LinesRead(events)
    ensures AllSent(events) && |LinesRead(events)| < |events| ==>
              Flatten(Batches(entries, events)) == entries + LinesRead(events)
    decreases |events|
  {
    if events != [] && events[0].Read? {
      var more := entries + [events[0].line];
      BatchesRead(entries, events);
      assert AllSent(events) ==> AllSent(events[1..]);
      if |more| < CHUNK {
        BatchesPrefix(more, events[1..]);
      } else if events[0].ok {
        BatchesPrefix([], events[1..]);
        FlattenCons(more, Batches([], events[1..]));
        assert [] + LinesRead(events[1..]) == LinesRead(events[1..]);
      }
    } else if events != [] && entries != [] && events[0].ok {
      FlattenCons(entries, []);
      assert [entries] + [] == [entries];
    }
  }

  ghost predicate Sized(chunks: seq<Chunk>) {
    && (forall k :: 0 <= k < |chunks| ==> 1 <= |chunks[k]| <= CHUNK)
    && (forall k :: 0 <= k < |chunks| - 1 ==> |chunks[k]| == CHUNK)
  }

  lemma SizedCons(x: Chunk, rest: seq<Chunk>)
    requires |x| == CHUNK && Sized(rest)
    ensures Sized([x] + rest)
  {
  }

  lemma {:induction false} BatchesSized(entries: seq<Line>, events: seq<Event>)
    requires |entries| < CHUNK
    ensures Sized(Batches(entries, events))
    decreases |events|
  {
    if events != [] && events[0].Read? {
      var more := entries + [events[0].line];
      BatchesRead(entries, events);
      if |more| < CHUNK {
        BatchesSized(more, events[1..]);
      } else if events[0].ok {
        BatchesSized([], events[1..]);
        SizedCons(more, Batches([], events[1..]));
      }
    }
  }

  // What the agent sends is an in-order prefix of the lines, cut into chunks of 1 to 50 lines, every
  // one but the last full; and it is all of them when no send fails and the loop ends with a flush.
  lemma BatchesCut(events: seq<Event>)
    ensures Flatten(Batches([], events)) <= LinesRead(events)
    ensures forall k :: 0 <= k < |Batches([], events)| ==> 1 <= |Batches([], events)[k]| <= 50
    ensures forall k :: 0 <= k < |Batches([], events)| - 1 ==> |Batches([], events)[k]| == 50
    ensures AllSent(events) && |LinesRead(events)| < |events| ==> Flatten(Batches([], events)) == LinesRead(events)
  {
    BatchesPrefix([], events);
    BatchesSized([], events);
    assert [] + LinesRead(events) == LinesRead(events);
  }

  // ---------------------------------------------------------------- exactly what is sent and reported

  // With `held` lines already in the buffer, reading line i fills it and sending the chunk fails.
  predicate Overflows(events: seq<Event>, held: nat, i: nat) {
    i < |LinesRead(events)| && i < |events| && (held + i + 1) % 50 == 0 && !events[i].ok
  }

  ghost predicate NoOverflow(events: seq<Event>, held: nat, n: nat) {
    forall i :: 0 <= i < n ==> !Overflows(events, held, i)
  }

  lemma LinesTail(events: seq<Event>)
    requires events != [] && events[0].Read?
    ensures |LinesRead(events)| == |LinesRead(events[1..])| + 1
  {
  }

  lemma {:induction false} LinesBound(events: seq<Event>)
    ensures |LinesRead(events)| <= |events|
    ensures |LinesRead(events)| < |events| ==> !events[|LinesRead(events)|].Read?
  {
    if events != [] && events[0].Read? {
      LinesBound(events[1..]);
    }
  }

  // The buffer after one more line, when it is sent or not yet full.
  function Held(held: nat): nat {
    if held + 1 < 50 then held + 1 else 0
  }

  lemma OverflowTail(events: seq<Event>, held: nat, i: nat)
    requires held < 50 && events != [] && events[0].Read? && i > 0
    ensures Overflows(events, held, i) <==> Overflows(events[1..], Held(held), i - 1)
  {
    LinesTail(events);
  }

  // How many lines are sent: all up to a failed full chunk, which is lost with everything after it;
  // without one, all of them if the loop ends with a flush that succeeds, else only full chunks.
  ghost predicate SentExactly(n: nat, events: seq<Event>, held: nat) {
    var lines := |LinesRead(events)|;
    && (forall i :: Overflows(events, held, i) && NoOverflow(events, held, i) ==> n == held + i + 1 - 50)
    && (NoOverflow(events, held, lines) ==>
          n == if lines < |events| && events[lines].ok then held + lines else (held + lines) / 50 * 50)
  }

  lemma {:induction false} BatchesCount(entries: seq<Line>, events: seq<Event>)
    requires |entries| < 50
    ensures SentExactly(|Flatten(Batches(entries, events))|, events, |entries|)
    decreases |events|
  {
    if events == [] {
    } else if !events[0].Read? {
      if entries != [] && events[0].ok {
        FlattenCons(entries, []);
        assert [entries] + [] == [entries];
      }
    } else {
      CountRead(entries, events);
    }
  }

  lemma {:induction false} CountRead(entries: seq<Line>, events: seq<Event>)
    requires |entries| < 50 && events != [] && events[0].Read?
    ensures SentExactly(|Flatten(Batches(entries, events))|, events, |entries|)
    decreases |events|, 0
  {
    var more, held := entries + [events[0].line], |entries|;
    var n := |Flatten(Batches(entries, events))|;
    BatchesRead(entries, events);
    LinesTail(events);
    if |more| < 50 {
      BatchesCount(more, events[1..]);
      SentTail(n, events, held);
    } else if events[0].ok {
      BatchesCount([], events[1..]);
      FlattenCons(more, Batches([], events[1..]));
      SentAfterChunk(n, events, held);
    } else {
      assert Overflows(events, held, 0);
      assert n == 0;
      forall i | Overflows(events, held, i) && NoOverflow(events, held, i)
        ensures i == 0
      {
      }
    }
  }

  lemma NoOverflowTail(events: seq<Event>, held: nat, n: nat)
    requires held < 50 && events != [] && events[0].Read? && n > 0 && !Overflows(events, held, 0)
    ensures NoOverflow(events, held, n) <==> NoOverflow(events[1..], Held(held), n - 1)
  {
    forall i | 0 <= i < n - 1
      ensures Overflows(events[1..], Held(held), i) <==> Overflows(events, held, i + 1)
    {
      OverflowTail(events, held, i + 1);
    }
    if NoOverflow(events[1..], Held(held), n - 1) {
      forall i | 0 <= i < n
        ensures !Overflows(events, held, i)
      {
        if i > 0 {
          OverflowTail(events, held, i);
        }
      }
    }
  }

  lemma SentTail(n: nat, events: seq<Event>, held: nat)
    requires held + 1 < 50 && events != [] && events[0].Read? && SentExactly(n, events[1..], held + 1)
    ensures SentExactly(n, events, held)
  {
    LinesTail(events);
    var lines := |LinesRead(events)|;
    NoOverflowTail(events, held, lines);
    forall i | Overflows(events, held, i) && NoOverflow(events, held, i)
      ensures n == held + i + 1 - 50
    {
      if i > 0 {
        OverflowTail(events, held, i);
        NoOverflowTail(events, held, i);
      }
    }
  }

  lemma SentAfterChunk(n: nat, events: seq<Event>, held: nat)
    requires held + 1 == 50 && events != [] && events[0].Read? && events[0].ok && n >= 50 && SentExactly(n - 50, events[1..], 0)
    ensures SentExactly(n, events, held)
  {
    LinesTail(events);
    var lines := |LinesRead(events)|;
    NoOverflowTail(events, held, lines);
    forall i | Overflows(events, held, i) && NoOverflow(events, held, i)
      ensures n == held + i + 1 - 50
    {
      OverflowTail(events, held, i);
      NoOverflowTail(events, held, i);
    }
    WholeChunks(lines - 1);
    assert held + lines == 50 + (lines - 1);
  }

  lemma WholeChunks(x: nat)
    ensures (50 + x) / 50 * 50 == x / 50 * 50 + 50
  {
  }

  predicate Stops(e: Event) {
    e.Cancelled? || e.Ended?
  }

  // The reader failed with this error at event n, while the stream was live, and the loop got there.
  ghost predicate FailsAt(events: seq<Event>, held: nat, open: bool, n: nat, error: string) {
    && n < |events| && events[n].Ended? && events[n].live && events[n].error == Some(error)
    && (forall i :: 0 <= i < n ==> !Stops(events[i]))
    && (open ==> NoOverflow(events, held, n))
  }

  // An error is reported exactly when the reader returned it while the stream was live, and neither a
  // cancellation nor a failed full chunk had ended the loop before.
  lemma {:induction false} ReportedExact(entries: seq<Line>, events: seq<Event>, open: bool, error: string)
    requires |entries| < 50
    ensures Reported(entries, events, open) == Some(error) <==> exists n :: FailsAt(events, |entries|, open, n, error)
    decreases |events|
  {
    if events != [] {
      match events[0]
      case Read(line, ok) =>
        if !open {
          ReportedExact(entries, events[1..], false, error);
          FailsLater(events, |entries|, false, |entries|, false, error);
        } else if |entries| + 1 < 50 {
          ReportedExact(entries + [line], events[1..], true, error);
          FailsLater(events, |entries|, true, |entries| + 1, true, error);
        } else if ok {
          ReportedExact([], events[1..], true, error);
          FailsLater(events, |entries|, true, 0, true, error);
        } else {
          LinesTail(events);
          assert Overflows(events, |entries|, 0);
        }
      case Closed(_) =>
        ReportedExact([], events[1..], false, error);
        FailsLater(events, |entries|, open, 0, false, error);
      case Cancelled(_) =>
      case Ended(_, _, _) =>
        if Reported(entries, events, open) == Some(error) {
          assert FailsAt(events, |entries|, open, 0, error);
        }
    }
  }

  lemma FailsLater(events: seq<Event>, held: nat, open: bool, held': nat, open': bool, error: string)
    requires events != [] && !Stops(events[0]) && held < 50
    requires events[0].Closed? ==> !open'
    requires events[0].Read? ==> open' == open && (open ==> held' == Held(held) && !Overflows(events, held, 0))
    ensures (exists n :: FailsAt(events, held, open, n, error)) <==> (exists n :: FailsAt(events[1..], held', open', n, error))
  {
    if exists n :: FailsAt(events, held, open, n, error) {
      var n: nat :| FailsAt(events, held, open, n, error);
      assert n > 0;
      FailsShift(events, held, open, held', open', n, error);
      assert FailsAt(events[1..], held', open', n - 1, error);
    }
    if exists n :: FailsAt(events[1..], held', open', n, error) {
      var n: nat :| FailsAt(events[1..], held', open', n, error);
      FailsShift(events, held, open, held', open', n + 1, error);
      assert FailsAt(events, held, open, n + 1, error);
    }
  }

  lemma FailsShift(events: seq<Event>, held: nat, open: bool, held': nat, open': bool, n: nat, error: string)
    requires events != [] && !Stops(events[0]) && held < 50 && n > 0
    requires events[0].Closed? ==> !open'
    requires events[0].Read? ==> open' == open && (open ==> held' == Held(held) && !Overflows(events, held, 0))
    ensures FailsAt(events, held, open, n, error) <==> FailsAt(events[1..], held', open', n - 1, error)
  {
    assert forall i :: 0 <= i < |events[1..]| ==> events[1..][i] == events[i + 1];
    if events[0].Read? && open {
      NoOverflowTail(events, held, n);
    } else if events[0].Closed? {
      assert LinesRead(events) == [];
    }
    if FailsAt(events[1..], held', open', n - 1, error) {
      forall i | 0 <= i < n
        ensures !Stops(events[i])
      {
        assert i > 0 ==> events[i] == events[1..][i - 1];
      }
    }
  }

  // ---------------------------------------------------------------- one connection, many streams

  // The history and the state of one stream: chunks sent by the agent, routed by the manager, queued
  // in its callback, and taken by StreamLogs.  `full` and `gone` count the routed chunks that found the
  // callback full or removed, and `peak` is the longest the queue has been.
  datatype Flow = Flow(
    sent: seq<Chunk>, routed: seq<Chunk>, queue: seq<Chunk>, taken: seq<Chunk>, full: nat, gone: nat, peak: nat,
    output: seq<Line>, registered: bool)

  datatype Packet = Packet(id: string, chunk: Chunk)

  datatype State = State(flows: map<string, Flow>, wire: seq<Packet>)

  datatype Step =
    | Register(id: string)
    | AgentSend(id: string, chunk: Chunk)
    | Route
    | Take(id: string, written: nat)  // entries written to the output before the caller's context ended
    | Unregister(id: string)

  const NEW_FLOW := Flow([], [], [], [], 0, 0, 0, [], false)

  function FlowOf(s: State, id: string): Flow {
    if id in s.flows then s.flows[id] else NEW_FLOW
  }

  function RouteChunk(f: Flow, chunk: Chunk): Flow {
    var g := f.(routed := f.routed + [chunk]);
    if !f.registered then g.(gone := f.gone + 1)
    else if |f.queue| < CALLBACK_CAPACITY then
      g.(queue := f.queue + [chunk], peak := if f.peak < |f.queue| + 1 then |f.queue| + 1 else f.peak)
    else g.(full := f.full + 1)
  }

  // StreamLogs takes one chunk and writes its entries one by one; it returns, and its callback is
  // gone, when the context ends before the last entry.
  function TakeChunk(f: Flow, written: nat): Flow
    requires f.queue != []
  {
    var chunk := f.queue[0];
    var g := f.(queue := f.queue[1..], taken := f.taken + [chunk]);
    if written < |chunk| then g.(output := f.output + chunk[..written], registered := false)
    else g.(output := f.output + chunk)
  }

  function Apply(s: State, step: Step): State {
    match step
    case Register(id) =>
      if id in s.flows then s else s.(flows := s.flows[id := NEW_FLOW.(registered := true)])
    case AgentSend(id, chunk) =>
      if id !in s.flows then s
      else State(s.flows[id := s.flows[id].(sent := s.flows[id].sent + [chunk])], s.wire + [Packet(id, chunk)])
    case Route =>
      if s.wire == [] then s
      else
        var p := s.wire[0];
        State(if p.id in s.flows then s.flows[p.id := RouteChunk(s.flows[p.id], p.chunk)] else s.flows, s.wire[1..])
    case Take(id, written) =>
      if id in s.flows && s.flows[id].registered && s.flows[id].queue != []
      then s.(flows := s.flows[id := TakeChunk(s.flows[id], written)])
      else s
    case Unregister(id) =>
      if id in s.flows then s.(flows := s.flows[id := s.flows[id].(registered := false)]) else s
  }

  function Run(s: State, steps: seq<Step>): State
    decreases |steps|
  {
    if steps == [] then s else Run(Apply(s, steps[0]), steps[1..])
  }

  // The chunks of one stream still on the wire.
  function OnWire(id: string, wire: seq<Packet>): seq<Chunk> {
    if wire == [] then []
    else (if wire[0].id == id then [wire[0].chunk] else []) + OnWire(id, wire[1..])
  }

  lemma {:induction false} OnWireSnoc(id: string, wire: seq<Packet>, p: Packet)
    ensures OnWire(id, wire + [p]) == OnWire(id, wire) + (if p.id == id then [p.chunk] else [])
  {
    if wire == [] {
      assert wire + [p] == [p] && [p][1..] == [];
    } else {
      assert (wire + [p])[1..] == wire[1..] + [p];
      OnWireSnoc(id, wire[1..], p);
    }
  }

  // `passed` is what the callback accepted, of which `waiting` chunks are still in it.
  ghost predicate Counted(passed: seq<Chunk>, routed: seq<Chunk>, full: nat, gone: nat, waiting: nat, peak: nat, registered: bool) {
    && Subsequence(passed, routed) && |routed| == |passed| + full + gone
    && waiting <= peak <= CALLBACK_CAPACITY
    && (full > 0 ==> peak == CALLBACK_CAPACITY) && (registered ==> gone == 0)
    && (full + gone == 0 ==> passed == routed)
  }

  ghost predicate FlowOk(f: Flow, wire: seq<Chunk>) {
    && f.sent == f.routed + wire
    && Counted(f.taken + f.queue, f.routed, f.full, f.gone, |f.queue|, f.peak, f.registered)
    && Wrote(f.output, f.taken, f.registered)
  }

  // What was written is what was taken, up to where the caller left.
  ghost predicate Wrote(output: seq<Line>, taken: seq<Chunk>, registered: bool) {
    output <= Flatten(taken) && (registered ==> output == Flatten(taken))
  }

  lemma WroteMore(output: seq<Line>, taken: seq<Chunk>, chunk: Chunk, written: nat)
    requires Wrote(output, taken, true)
    ensures Wrote(output + chunk, taken + [chunk], true)
    ensures written < |chunk| ==> Wrote(output + chunk[..written], taken + [chunk], false)
  {
    FlattenSnoc(taken, chunk);
    if written < |chunk| {
      assert output + chunk == (output + chunk[..written]) + chunk[written..];
    }
  }

  lemma CountedQueued(passed: seq<Chunk>, routed: seq<Chunk>, full: nat, gone: nat, waiting: nat, peak: nat, chunk: Chunk)
    requires Counted(passed, routed, full, gone, waiting, peak, true) && waiting < CALLBACK_CAPACITY
    ensures Counted(passed + [chunk], routed + [chunk], full, gone, waiting + 1, if peak < waiting + 1 then waiting + 1 else peak, true)
  {
    SubsequenceAppend(passed, routed, [chunk]);
  }

  lemma CountedLost(passed: seq<Chunk>, routed: seq<Chunk>, full: nat, gone: nat, waiting: nat, peak: nat, registered: bool, chunk: Chunk)
    requires Counted(passed, routed, full, gone, waiting, peak, registered)
    ensures waiting >= CALLBACK_CAPACITY ==> Counted(passed, routed + [chunk], full + 1, gone, waiting, peak, registered)
    ensures !registered ==> Counted(passed, routed + [chunk], full, gone + 1, waiting, peak, false)
  {
    SubsequenceGrow(passed, routed, [chunk]);
  }

  lemma RouteOk(f: Flow, chunk: Chunk, wire: seq<Chunk>)
    requires FlowOk(f, [chunk] + wire)
    ensures FlowOk(RouteChunk(f, chunk), wire)
  {
    CountedLost(f.taken + f.queue, f.routed, f.full, f.gone, |f.queue|, f.peak, f.registered, chunk);
    if f.registered && |f.queue| < CALLBACK_CAPACITY {
      CountedQueued(f.taken + f.queue, f.routed, f.full, f.gone, |f.queue|, f.peak, chunk);
      assert f.taken + (f.queue + [chunk]) == f.taken + f.queue + [chunk];
    }
    assert f.routed + ([chunk] + wire) == f.routed + [chunk] + wire;
  }

  lemma CountedTaken(passed: seq<Chunk>, routed: seq<Chunk>, full: nat, gone: nat, waiting: nat, peak: nat, still: bool)
    requires Counted(passed, routed, full, gone, waiting, peak, true) && waiting > 0
    ensures Counted(passed, routed, full, gone, waiting - 1, peak, still)
  {
  }

  lemma Moved(taken: seq<Chunk>, queue: seq<Chunk>)
    requires queue != []
    ensures (taken + [queue[0]]) + queue[1..] == taken + queue
  {
  }

  lemma TakeOk(f: Flow, written: nat, wire: seq<Chunk>)
    requires FlowOk(f, wire) && f.queue != [] && f.registered
    ensures FlowOk(TakeChunk(f, written), wire)
  {
    WroteMore(f.output, f.taken, f.queue[0], written);
    Moved(f.taken, f.queue);
    CountedTaken(f.taken + f.queue, f.routed, f.full, f.gone, |f.queue|, f.peak, written >= |f.queue[0]|);
  }

  // A caller that leaves in the middle of a chunk has written exactly the entries before, and stops
  // listening; otherwise it has written the whole chunk and listens on.
  lemma TakeWrites(f: Flow, written: nat)
    requires f.queue != [] && f.registered
    ensures var g := TakeChunk(f, written);
            if written < |f.queue[0]| then g.output == f.output + f.queue[0][..written] && !g.registered
            else g.output == f.output + f.queue[0] && g.registered
  {
  }

  lemma SendOk(f: Flow, chunk: Chunk, wire: seq<Chunk>)
    requires FlowOk(f, wire)
    ensures FlowOk(f.(sent := f.sent + [chunk]), wire + [chunk])
  {
    assert f.routed + (wire + [chunk]) == f.routed + wire + [chunk];
  }

  lemma FlowStep(s: State, step: Step, id: string)
    requires FlowOk(FlowOf(s, id), OnWire(id, s.wire))
    ensures FlowOk(FlowOf(Apply(s, step), id), OnWire(id, Apply(s, step).wire))
  {
    match step
    case Register(x) =>
    case AgentSend(x, chunk) => FlowSend(s, x, chunk, id);
    case Route => FlowRoute(s, id);
    case Take(x, written) =>
      if x == id && FlowOf(s, id).queue != [] && FlowOf(s, id).registered {
        TakeOk(FlowOf(s, id), written, OnWire(id, s.wire));
      }
    case Unregister(x) =>
  }

  lemma FlowSend(s: State, x: string, chunk: Chunk, id: string)
    requires FlowOk(FlowOf(s, id), OnWire(id, s.wire))
    ensures var t := Apply(s, AgentSend(x, chunk)); FlowOk(FlowOf(t, id), OnWire(id, t.wire))
  {
    OnWireSnoc(id, s.wire, Packet(x, chunk));
    SendOk(FlowOf(s, id), chunk, OnWire(id, s.wire));
  }

  lemma FlowRoute(s: State, id: string)
    requires FlowOk(FlowOf(s, id), OnWire(id, s.wire))
    ensures var t := Apply(s, Route); FlowOk(FlowOf(t, id), OnWire(id, t.wire))
  {
    if s.wire != [] && s.wire[0].id == id {
      RouteOk(FlowOf(s, id), s.wire[0].chunk, OnWire(id, s.wire[1..]));
    }
  }

  lemma {:induction false} FlowRun(s: State, steps: seq<Step>, id: string)
    requires FlowOk(FlowOf(s, id), OnWire(id, s.wire))
    ensures var t := Run(s, steps); FlowOk(FlowOf(t, id), OnWire(id, t.wire))
    decreases |steps|
  {
    if steps != [] {
      FlowStep(s, steps[0], id);
      FlowRun(Apply(s, steps[0]), steps[1..], id);
    }
  }

  // Every run: what StreamLogs wrote for a request id is an ordered, duplicate-free subsequence of
  // the lines sent under that id, however the streams interleave.  Only whole chunks are lost: none
  // while the caller listens and its callback has never held 64, and then none is missing.
  lemma OutputOrdered(steps: seq<Step>, id: string)
    ensures var f := FlowOf(Run(State(map[], []), steps), id);
            && Subsequence(f.output, Flatten(f.sent))
            && Subsequence(f.taken + f.queue, f.sent)
            && |f.sent| == |f.taken| + |f.queue| + f.full + f.gone + |OnWire(id, Run(State(map[], []), steps).wire)|
            && (f.full > 0 ==> f.peak == 64) && (f.registered ==> f.gone == 0)
            && (f.registered && f.peak < 64 ==>
                  f.sent == f.taken + f.queue + OnWire(id, Run(State(map[], []), steps).wire))
            && (f.registered ==> f.output == Flatten(f.taken))
  {
    var init := State(map[], []);
    SubsequenceRefl<Chunk>([]);
    FlowRun(init, steps, id);
    var s := Run(init, steps);
    FlowOrdered(FlowOf(s, id), OnWire(id, s.wire));
  }

  lemma FlowOrdered(f: Flow, wire: seq<Chunk>)
    requires FlowOk(f, wire)
    ensures Subsequence(f.output, Flatten(f.sent)) && Subsequence(f.taken + f.queue, f.sent)
    ensures |f.sent| == |f.taken| + |f.queue| + f.full + f.gone + |wire|
    ensures f.registered && f.peak < 64 ==> f.sent == f.taken + f.queue + wire
  {
    SubsequenceGrow(f.taken + f.queue, f.routed, wire);
    TakenOrdered(f.taken, f.queue, f.sent);
    SubsequencePrefix(Flatten(f.taken), Flatten(f.sent), |f.output|);
    assert Flatten(f.taken)[..|f.output|] == f.output;
  }

  lemma TakenOrdered(taken: seq<Chunk>, queue: seq<Chunk>, sent: seq<Chunk>)
    requires Subsequence(taken + queue, sent)
    ensures Subsequence(Flatten(taken), Flatten(sent))
  {
    SubsequencePrefix(taken + queue, sent, |taken|);
    assert (taken + queue)[..|taken|] == taken;
    var at :| Embeds(taken, sent, at);
    SubsequenceFlatten(taken, sent, at);
  }

  // End to end: when the agent has sent some of the chunks runLogStream cuts, the output is an
  // ordered subsequence of the container's lines, without duplicates.
  lemma StreamLogsFaithful(steps: seq<Step>, id: string, events: seq<Event>)
    requires FlowOf(Run(State(map[], []), steps), id).sent <= Batches([], events)
    ensures Subsequence(FlowOf(Run(State(map[], []), steps), id).output, LinesRead(events))
  {
    var f := FlowOf(Run(State(map[], []), steps), id);
    OutputOrdered(steps, id);
    BatchesCut(events);
    PrefixFlatten(f.sent, Batches([], events));
    SubsequenceInPrefix(f.output, Flatten(f.sent), LinesRead(events));
  }

  lemma PrefixFlatten(xs: seq<Chunk>, ys: seq<Chunk>)
    requires xs <= ys
    ensures Flatten(xs) <= Flatten(ys)
  {
    FlattenConcat(xs, ys[|xs|..]);
    assert ys == xs + ys[|xs|..];
  }

  lemma SubsequenceInPrefix(xs: seq<Line>, ys: seq<Line>, zs: seq<Line>)
    requires Subsequence(xs, ys) && ys <= zs
    ensures Subsequence(xs, zs)
  {
    SubsequenceGrow(xs, ys, zs[|ys|..]);
    assert ys + zs[|ys|..] == zs;
  }
}
