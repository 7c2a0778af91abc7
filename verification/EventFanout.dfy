/** The fan-out of podman events to clients: several streams' broadcasters, clients coming and going. */
module EventFanout {
  import opened Common
  import opened EventStreams

  type StreamId = nat

  const CLIENT_CAPACITY := 64

  datatype Item = Item(stream: StreamId, event: Event)

  // A client's channel and what its consumer has received.  History: `offered` is every event a
  // broadcaster tried to send it, `lost` how many found the channel full, `peak` how many it has held at
  // most, `since` and `till` how many events each stream had sent when the client was registered and
  // unregistered.
  datatype Client = Client(
    buffer: seq<Item>, closed: bool, got: seq<Item>, offered: seq<Item>, lost: nat, peak: nat,
    since: map<StreamId, nat>, till: map<StreamId, nat>)

  datatype State = State(streams: map<StreamId, Stream>, clients: map<ClientId, Client>, registered: set<ClientId>, panicked: bool)

  datatype Step =
    | OpenStream(id: StreamId)
    | Inner(id: StreamId, op: Op)
    | BeginSend(id: StreamId)
    | Send(id: StreamId, client: ClientId)
    | Register(client: ClientId)
    | Unregister(client: ClientId)
    | CloseClients
    | Receive(client: ClientId)

  const INIT := State(map[], map[], {}, false)

  // Some broadcaster holds the read lock, so the write lock cannot be taken.
  ghost predicate Busy(s: State) {
    exists id :: id in s.streams && s.streams[id].pump.Sending?
  }

  function Marks(streams: map<StreamId, Stream>): map<StreamId, nat> {
    map id | id in streams :: |streams[id].sent|
  }

  function Mark(m: map<StreamId, nat>, id: StreamId): nat {
    if id in m then m[id] else 0
  }

  // A send that does not wait: kept if there is room, else lost.
  function Offer(c: Client, x: Item): Client {
    if |c.buffer| < CLIENT_CAPACITY then
      c.(buffer := c.buffer + [x], offered := c.offered + [x], peak := if c.peak < |c.buffer| + 1 then |c.buffer| + 1 else c.peak)
    else c.(lost := c.lost + 1, offered := c.offered + [x])
  }

  function Closing(c: Client, streams: map<StreamId, Stream>): Client {
    c.(closed := true, till := Marks(streams))
  }

  function DoSend(s: State, id: StreamId, k: ClientId): State {
    if id !in s.streams || !s.streams[id].pump.Sending? || k !in s.streams[id].pump.left || k !in s.clients then s
    else if s.clients[k].closed then s.(panicked := true)
    else
      s.(streams := s.streams[id := Next(s.streams[id], Served(k))],
         clients := s.clients[k := Offer(s.clients[k], Item(id, s.streams[id].pump.event))])
  }

  ghost function DoRegister(s: State, k: ClientId): State {
    if Busy(s) || k in s.clients then s
    else
      s.(clients := s.clients[k := Client([], false, [], [], 0, 0, Marks(s.streams), map[])],
         registered := s.registered + {k})
  }

  ghost function DoUnregister(s: State, k: ClientId): State {
    if Busy(s) || k !in s.registered || k !in s.clients then s
    else
      s.(clients := s.clients[k := Closing(s.clients[k], s.streams)], registered := s.registered - {k},
         panicked := s.panicked || s.clients[k].closed)
  }

  ghost function DoCloseClients(s: State): State {
    if Busy(s) then s
    else
      s.(clients := map k | k in s.clients :: if k in s.registered then Closing(s.clients[k], s.streams) else s.clients[k],
         registered := {},
         panicked := s.panicked || exists k :: k in s.registered && k in s.clients && s.clients[k].closed)
  }

  function DoReceive(s: State, k: ClientId): State {
    if k !in s.clients || s.clients[k].buffer == [] then s
    else
      var c := s.clients[k];
      s.(clients := s.clients[k := c.(got := c.got + [c.buffer[0]], buffer := c.buffer[1..])])
  }

  function DoInner(s: State, id: StreamId, op: Op): State {
    if id !in s.streams || op.Lock? || op.Served? then s else s.(streams := s.streams[id := Next(s.streams[id], op)])
  }

  function DoBeginSend(s: State, id: StreamId): State {
    if id !in s.streams then s else s.(streams := s.streams[id := Next(s.streams[id], Lock(s.registered))])
  }

  ghost function After(s: State, st: Step): State {
    match st
    case OpenStream(id) => if id in s.streams then s else s.(streams := s.streams[id := NEW])
    case Inner(id, op) => DoInner(s, id, op)
    case BeginSend(id) => DoBeginSend(s, id)
    case Send(id, k) => DoSend(s, id, k)
    case Register(k) => DoRegister(s, k)
    case Unregister(k) => DoUnregister(s, k)
    case CloseClients => DoCloseClients(s)
    case Receive(k) => DoReceive(s, k)
  }

  ghost function RunAll(s: State, steps: seq<Step>): State
    decreases |steps|
  {
    if steps == [] then s else RunAll(After(s, steps[0]), steps[1..])
  }

  // ---------------------------------------------------------------- one stream's events

  function Of(items: seq<Item>, id: StreamId): seq<Event> {
    if items == [] then []
    else
      var init, last := Of(items[..|items| - 1], id), items[|items| - 1];
      if last.stream == id then init + [last.event] else init
  }

  lemma OfSnoc(items: seq<Item>, x: Item, id: StreamId)
    ensures Of(items + [x], id) == Of(items, id) + if x.stream == id then [x.event] else []
  {
    assert (items + [x])[..|items|] == items;
  }

  lemma {:induction false} OfSubsequence(xs: seq<Item>, ys: seq<Item>, at: seq<nat>, id: StreamId)
    requires Embeds(xs, ys, at)
    ensures Subsequence(Of(xs, id), Of(ys, id))
    decreases |ys|
  {
    if ys == [] {
      assert xs == [];
      SubsequenceRefl(Of(xs, id));
    } else {
      var n, k := |ys| - 1, |at| - 1;
      assert ys == ys[..n] + [ys[n]];
      OfSnoc(ys[..n], ys[n], id);
      var tail := if ys[n].stream == id then [ys[n].event] else [];
      if |at| > 0 && at[k] == n {
        EmbedsInit(xs, ys, at);
        OfSubsequence(xs[..k], ys[..n], at[..k], id);
        SubsequenceAppend(Of(xs[..k], id), Of(ys[..n], id), tail);
        OfSnoc(xs[..k], ys[n], id);
      } else {
        assert Embeds(xs, ys[..n], at);
        OfSubsequence(xs, ys[..n], at, id);
        SubsequenceGrow(Of(xs, id), Of(ys[..n], id), tail);
      }
    }
  }

  // ---------------------------------------------------------------- invariant

  ghost predicate StreamOk(st: Stream, registered: set<ClientId>) {
    Inv(st) && (st.pump.Sending? ==> st.pump.left <= registered && st.sent != [] && st.sent[|st.sent| - 1] == st.pump.event)
  }

  ghost predicate ClientOk(c: Client) {
    && Subsequence(c.got + c.buffer, c.offered)
    && |c.got| + |c.buffer| + c.lost == |c.offered|
    && |c.buffer| <= c.peak <= CLIENT_CAPACITY && (c.lost > 0 ==> c.peak == CLIENT_CAPACITY)
  }

  // Where in a stream's sent events a client stands: at the end unless it is about to be served, or
  // where it was when it was unregistered.
  function Reached(c: Client, k: ClientId, id: StreamId, st: Stream, registered: bool): int {
    if !registered then Mark(c.till, id)
    else if st.pump.Sending? && k in st.pump.left then |st.sent| - 1
    else |st.sent|
  }

  // A client has been offered exactly what the stream sent while it was registered.
  ghost predicate WindowOk(c: Client, k: ClientId, id: StreamId, st: Stream, registered: bool) {
    var to := Reached(c, k, id, st, registered);
    Mark(c.since, id) <= to <= |st.sent| && Of(c.offered, id) == st.sent[Mark(c.since, id)..to]
  }

  ghost predicate ClientsOk(s: State) {
    && (forall k :: k in s.clients ==> ClientOk(s.clients[k]) && (s.clients[k].closed <==> k !in s.registered))
    && (forall k :: k in s.registered ==> k in s.clients)
  }

  ghost predicate WindowsOk(s: State) {
    forall k, id :: k in s.clients && id in s.streams ==>
      WindowOk(s.clients[k], k, id, s.streams[id], k in s.registered)
  }

  // Marks are only ever made for streams that exist.
  ghost predicate MarksOk(s: State) {
    forall k, id :: k in s.clients && id !in s.streams ==>
      Mark(s.clients[k].since, id) == 0 && Mark(s.clients[k].till, id) == 0 && Of(s.clients[k].offered, id) == []
  }

  ghost predicate StreamsOk(s: State) {
    forall id :: id in s.streams ==> StreamOk(s.streams[id], s.registered)
  }

  ghost predicate AllOk(s: State) {
    && !s.panicked && StreamsOk(s)
    && ClientsOk(s) && WindowsOk(s) && MarksOk(s)
  }

  // ---------------------------------------------------------------- each step keeps it

  lemma PumpQuiet(st: Stream, op: Op)
    requires !op.Take? && !op.Lock? && !op.Served? && !op.Unlock?
    ensures Next(st, op).sent == st.sent && Next(st, op).pump == st.pump
  {
  }

  // A stream's own steps move neither what it has sent nor whom it is serving, except to release.
  lemma InnerKeeps(st: Stream, op: Op, registered: set<ClientId>)
    requires StreamOk(st, registered) && !op.Lock? && !op.Served?
    ensures StreamOk(Next(st, op), registered) && Next(st, op).sent == st.sent
    ensures forall k :: (Next(st, op).pump.Sending? && k in Next(st, op).pump.left) <==> (st.pump.Sending? && k in st.pump.left)
  {
    InvStep(st, op);
    if !op.Take? && !op.Unlock? {
      PumpQuiet(st, op);
    }
  }

  lemma KeepsInner(s: State, id: StreamId, op: Op)
    requires AllOk(s)
    ensures AllOk(DoInner(s, id, op))
  {
    if id in s.streams && !op.Lock? && !op.Served? {
      var t := DoInner(s, id, op);
      assert StreamOk(s.streams[id], s.registered);
      InnerKeeps(s.streams[id], op, s.registered);
      assert StreamsOk(t);
      assert ClientsOk(t);
      SameWindows(s, t);
      SameMarks(s, t);
    }
  }

  lemma SameMarks(s: State, t: State)
    requires MarksOk(s) && s.clients == t.clients && s.streams.Keys <= t.streams.Keys
    ensures MarksOk(t)
  {
  }

  lemma SameWindows(s: State, t: State)
    requires WindowsOk(s) && s.clients == t.clients && s.registered == t.registered && s.streams.Keys == t.streams.Keys
    requires forall id :: id in s.streams ==> t.streams[id].sent == s.streams[id].sent
    requires forall id, k :: id in s.streams ==>
               ((t.streams[id].pump.Sending? && k in t.streams[id].pump.left) <==> (s.streams[id].pump.Sending? && k in s.streams[id].pump.left))
    ensures WindowsOk(t)
  {
    forall k, id | k in t.clients && id in t.streams
      ensures WindowOk(t.clients[k], k, id, t.streams[id], k in t.registered)
    {
      assert WindowOk(s.clients[k], k, id, s.streams[id], k in s.registered);
    }
  }

  // Taking the lock puts every registered client one event behind.
  lemma LockWindow(c: Client, k: ClientId, id: StreamId, st: Stream, registered: set<ClientId>)
    requires WindowOk(c, k, id, st, k in registered) && st.pump.Holding?
    ensures WindowOk(c, k, id, Next(st, Lock(registered)), k in registered)
  {
    var t := Next(st, Lock(registered));
    assert t.sent[..|st.sent|] == st.sent;
    var to := Reached(c, k, id, st, k in registered);
    assert t.sent[Mark(c.since, id)..to] == st.sent[Mark(c.since, id)..to];
  }

  lemma KeepsBeginSend(s: State, id: StreamId)
    requires AllOk(s)
    ensures AllOk(DoBeginSend(s, id))
  {
    if id in s.streams && s.streams[id].pump.Holding? {
      var t := DoBeginSend(s, id);
      InvStep(s.streams[id], Lock(s.registered));
      forall k, other | k in t.clients && other in t.streams
        ensures WindowOk(t.clients[k], k, other, t.streams[other], k in t.registered)
      {
        assert WindowOk(s.clients[k], k, other, s.streams[other], k in s.registered);
        if other == id {
          LockWindow(s.clients[k], k, id, s.streams[id], s.registered);
        }
      }
    }
  }

  lemma OfferKeeps(c: Client, x: Item)
    requires ClientOk(c)
    ensures ClientOk(Offer(c, x))
  {
    if |c.buffer| < CLIENT_CAPACITY {
      SubsequenceAppend(c.got + c.buffer, c.offered, [x]);
      assert c.got + (c.buffer + [x]) == c.got + c.buffer + [x];
    } else {
      SubsequenceGrow(c.got + c.buffer, c.offered, [x]);
    }
  }

  // The client that is served catches up; its place in other streams does not move.
  lemma ServedWindow(c: Client, k: ClientId, id: StreamId, st: Stream, registered: set<ClientId>)
    requires WindowOk(c, k, id, st, true) && StreamOk(st, registered) && st.pump.Sending? && k in st.pump.left
    ensures WindowOk(Offer(c, Item(id, st.pump.event)), k, id, Next(st, Served(k)), true)
  {
    OfSnoc(c.offered, Item(id, st.pump.event), id);
    var n, from := |st.sent| - 1, Mark(c.since, id);
    assert st.sent[from..n] + [st.sent[n]] == st.sent[from..n + 1];
  }

  lemma OtherWindow(c: Client, k: ClientId, x: Item, id: StreamId, st: Stream)
    requires WindowOk(c, k, id, st, true) && x.stream != id
    ensures WindowOk(Offer(c, x), k, id, st, true)
  {
    OfSnoc(c.offered, x, id);
  }

  predicate Due(s: State, id: StreamId, k: ClientId) {
    id in s.streams && s.streams[id].pump.Sending? && k in s.streams[id].pump.left && k in s.clients
  }

  lemma SendWindows(s: State, id: StreamId, k: ClientId)
    requires StreamsOk(s) && ClientsOk(s) && WindowsOk(s) && Due(s, id, k)
    ensures k in s.registered && !s.clients[k].closed && WindowsOk(DoSend(s, id, k))
  {
    var t := DoSend(s, id, k);
    assert StreamOk(s.streams[id], s.registered);
    var x := Item(id, s.streams[id].pump.event);
    forall l, other | l in t.clients && other in t.streams
      ensures WindowOk(t.clients[l], l, other, t.streams[other], l in t.registered)
    {
      assert WindowOk(s.clients[l], l, other, s.streams[other], l in s.registered);
      if l == k && other == id {
        ServedWindow(s.clients[k], k, id, s.streams[id], s.registered);
      } else if l == k {
        OtherWindow(s.clients[k], k, x, other, s.streams[other]);
      } else if other == id {
        BystanderWindow(s.clients[l], l, k, id, s.streams[id], l in s.registered);
      }
    }
  }

  lemma BystanderWindow(c: Client, l: ClientId, k: ClientId, id: StreamId, st: Stream, registered: bool)
    requires WindowOk(c, l, id, st, registered) && l != k
    ensures WindowOk(c, l, id, Next(st, Served(k)), registered)
  {
  }

  lemma SendStreams(s: State, id: StreamId, k: ClientId)
    requires StreamsOk(s) && Due(s, id, k) && !s.clients[k].closed
    ensures StreamsOk(DoSend(s, id, k))
  {
    assert StreamOk(s.streams[id], s.registered);
    InvStep(s.streams[id], Served(k));
  }

  lemma SendClients(s: State, id: StreamId, k: ClientId)
    requires ClientsOk(s) && MarksOk(s) && Due(s, id, k) && !s.clients[k].closed
    ensures ClientsOk(DoSend(s, id, k)) && MarksOk(DoSend(s, id, k))
  {
    var x := Item(id, s.streams[id].pump.event);
    OfferKeeps(s.clients[k], x);
    forall other | other !in s.streams
      ensures Of(Offer(s.clients[k], x).offered, other) == []
    {
      OfSnoc(s.clients[k].offered, x, other);
    }
  }

  lemma KeepsSend(s: State, id: StreamId, k: ClientId)
    requires AllOk(s)
    ensures AllOk(DoSend(s, id, k))
  {
    if Due(s, id, k) {
      SendWindows(s, id, k);
      SendStreams(s, id, k);
      SendClients(s, id, k);
    }
  }

  lemma NewClient(streams: map<StreamId, Stream>)
    ensures ClientOk(Client([], false, [], [], 0, 0, Marks(streams), map[]))
  {
    var none: seq<Item> := [];
    SubsequenceRefl(none);
    assert none + none == none;
  }

  lemma JoinWindow(k: ClientId, id: StreamId, streams: map<StreamId, Stream>)
    requires id in streams && !streams[id].pump.Sending?
    ensures WindowOk(Client([], false, [], [], 0, 0, Marks(streams), map[]), k, id, streams[id], true)
  {
  }

  lemma KeepsRegister(s: State, k: ClientId)
    requires AllOk(s)
    ensures AllOk(DoRegister(s, k))
  {
    if !Busy(s) && k !in s.clients {
      var t := DoRegister(s, k);
      NewClient(s.streams);
      assert StreamsOk(t);
      assert ClientsOk(t);
      assert MarksOk(t);
      forall l, id | l in t.clients && id in t.streams
        ensures WindowOk(t.clients[l], l, id, t.streams[id], l in t.registered)
      {
        if l != k {
          assert WindowOk(s.clients[l], l, id, s.streams[id], l in s.registered);
        } else {
          JoinWindow(k, id, s.streams);
        }
      }
    }
  }

  // With nobody sending, a client leaves where it stands.
  lemma ClosingWindow(c: Client, k: ClientId, id: StreamId, streams: map<StreamId, Stream>)
    requires id in streams && WindowOk(c, k, id, streams[id], true) && !streams[id].pump.Sending?
    ensures WindowOk(Closing(c, streams), k, id, streams[id], false)
  {
  }

  lemma KeepsUnregister(s: State, k: ClientId)
    requires AllOk(s)
    ensures AllOk(DoUnregister(s, k))
  {
    if !Busy(s) && k in s.registered {
      var t := DoUnregister(s, k);
      forall l, id | l in t.clients && id in t.streams
        ensures WindowOk(t.clients[l], l, id, t.streams[id], l in t.registered)
      {
        assert WindowOk(s.clients[l], l, id, s.streams[id], l in s.registered);
        if l == k {
          ClosingWindow(s.clients[k], k, id, s.streams);
        }
      }
    }
  }

  lemma KeepsCloseClients(s: State)
    requires AllOk(s)
    ensures AllOk(DoCloseClients(s))
  {
    if !Busy(s) {
      var t := DoCloseClients(s);
      forall k, id | k in t.clients && id in t.streams
        ensures WindowOk(t.clients[k], k, id, t.streams[id], k in t.registered)
      {
        assert WindowOk(s.clients[k], k, id, s.streams[id], k in s.registered);
        if k in s.registered {
          ClosingWindow(s.clients[k], k, id, s.streams);
        }
      }
    }
  }

  lemma KeepsReceive(s: State, k: ClientId)
    requires AllOk(s)
    ensures AllOk(DoReceive(s, k))
  {
    if k in s.clients && s.clients[k].buffer != [] {
      var c := s.clients[k];
      assert c.got + [c.buffer[0]] + c.buffer[1..] == c.got + c.buffer;
      var t := DoReceive(s, k);
      forall l, id | l in t.clients && id in t.streams
        ensures WindowOk(t.clients[l], l, id, t.streams[id], l in t.registered)
      {
        assert WindowOk(s.clients[l], l, id, s.streams[id], l in s.registered);
      }
    }
  }

  lemma KeepsOpen(s: State, id: StreamId)
    requires AllOk(s) && id !in s.streams
    ensures AllOk(s.(streams := s.streams[id := NEW]))
  {
    var t := s.(streams := s.streams[id := NEW]);
    SameMarks(s, t);
    assert StreamsOk(t);
    forall k, other | k in t.clients && other in t.streams
      ensures WindowOk(t.clients[k], k, other, t.streams[other], k in t.registered)
    {
      if other != id {
        assert WindowOk(s.clients[k], k, other, s.streams[other], k in s.registered);
      } else {
        NewWindow(s.clients[k], k, id, k in s.registered);
      }
    }
  }

  lemma NewWindow(c: Client, k: ClientId, id: StreamId, registered: bool)
    requires Mark(c.since, id) == 0 && Mark(c.till, id) == 0 && Of(c.offered, id) == []
    ensures WindowOk(c, k, id, NEW, registered)
  {
  }

  lemma StepKeeps(s: State, st: Step)
    requires AllOk(s)
    ensures AllOk(After(s, st))
  {
    match st {
      case OpenStream(id) =>
        if id !in s.streams {
          KeepsOpen(s, id);
        }
      case Inner(id, op) => KeepsInner(s, id, op);
      case BeginSend(id) => KeepsBeginSend(s, id);
      case Send(id, k) => KeepsSend(s, id, k);
      case Register(k) => KeepsRegister(s, k);
      case Unregister(k) => KeepsUnregister(s, k);
      case CloseClients => KeepsCloseClients(s);
      case Receive(k) => KeepsReceive(s, k);
    }
  }

  lemma {:induction false} EveryRunKeeps(s: State, steps: seq<Step>)
    requires AllOk(s)
    ensures AllOk(RunAll(s, steps))
    decreases |steps|
  {
    if steps != [] {
      StepKeeps(s, steps[0]);
      EveryRunKeeps(After(s, steps[0]), steps[1..]);
    }
  }

  // ---------------------------------------------------------------- whole runs

  // No interleaving of streams and clients sends on a closed channel or closes one twice.
  lemma NeverPanics(steps: seq<Step>)
    ensures var s := RunAll(INIT, steps);
            !s.panicked && forall id :: id in s.streams ==> !s.streams[id].panicked
  {
    EveryRunKeeps(INIT, steps);
  }

  // What a client has received or will receive from a stream is an ordered subsequence of what the
  // stream emitted, within the window of events sent while the client was registered; it is all of
  // the window unless the client's channel has held 64 events at once.
  ghost predicate InWindow(c: Client, k: ClientId, id: StreamId, st: Stream, registered: bool) {
    var from, to := Mark(c.since, id), Reached(c, k, id, st, registered);
    && 0 <= from <= to <= |st.emitted|
    && Subsequence(Of(c.got + c.buffer, id), st.emitted[from..to])
    && (c.peak < 64 ==> Of(c.got + c.buffer, id) == st.emitted[from..to])
  }

  lemma Delivered(steps: seq<Step>, k: ClientId, id: StreamId)
    requires k in RunAll(INIT, steps).clients && id in RunAll(INIT, steps).streams
    ensures var s := RunAll(INIT, steps); InWindow(s.clients[k], k, id, s.streams[id], k in s.registered)
  {
    EveryRunKeeps(INIT, steps);
    var s := RunAll(INIT, steps);
    assert StreamOk(s.streams[id], s.registered) && WindowOk(s.clients[k], k, id, s.streams[id], k in s.registered);
    WindowDelivers(s.clients[k], k, id, s.streams[id], k in s.registered);
  }

  lemma WindowDelivers(c: Client, k: ClientId, id: StreamId, st: Stream, registered: bool)
    requires ClientOk(c) && WindowOk(c, k, id, st, registered) && st.emitted == st.sent + InHand(st.pump) + st.queue
    ensures InWindow(c, k, id, st, registered)
  {
    Received(c, id);
    PrefixSlice(st.sent, InHand(st.pump) + st.queue, Mark(c.since, id), Reached(c, k, id, st, registered));
    assert st.emitted == st.sent + (InHand(st.pump) + st.queue);
  }

  lemma PrefixSlice(a: seq<Event>, b: seq<Event>, i: int, j: int)
    requires 0 <= i <= j <= |a|
    ensures (a + b)[i..j] == a[i..j]
  {
  }

  lemma Received(c: Client, id: StreamId)
    requires ClientOk(c)
    ensures Subsequence(Of(c.got + c.buffer, id), Of(c.offered, id))
    ensures c.lost == 0 ==> Of(c.got + c.buffer, id) == Of(c.offered, id)
  {
    var at :| Embeds(c.got + c.buffer, c.offered, at);
    OfSubsequence(c.got + c.buffer, c.offered, at, id);
    if c.lost == 0 {
      AllOfIt(c.got + c.buffer, c.offered, at);
    }
  }

  lemma {:induction false} AllOfIt(xs: seq<Item>, ys: seq<Item>, at: seq<nat>)
    requires Embeds(xs, ys, at) && |xs| == |ys|
    ensures xs == ys
    decreases |ys|
  {
    if ys != [] {
      var n := |ys| - 1;
      InOrder(at, n);
      assert at[n] == n;
      EmbedsInit(xs, ys, at);
      AllOfIt(xs[..n], ys[..n], at[..n]);
      assert ys == ys[..n] + [ys[n]];
    }
  }

  lemma {:induction false} InOrder(at: seq<nat>, i: nat)
    requires i < |at| && forall a, b :: 0 <= a < b < |at| ==> at[a] < at[b]
    ensures at[i] >= i
  {
    if i > 0 {
      InOrder(at, i - 1);
    }
  }

  // Registering adds an open, empty client; leaving closes its channel; closing everything leaves no
  // client registered and every channel closed; a client reads the front of its buffer.
  lemma RegisterDoes(s: State, k: ClientId)
    requires !Busy(s) && k !in s.clients
    ensures var t := After(s, Register(k));
            k in t.registered && k in t.clients && !t.clients[k].closed && t.clients[k].buffer == []
  {
  }

  lemma UnregisterDoes(s: State, k: ClientId)
    requires AllOk(s) && !Busy(s)
    ensures var t := After(s, Unregister(k));
            k !in t.registered && (k in s.registered ==> k in t.clients && t.clients[k].closed)
  {
  }

  lemma CloseClientsDoes(s: State)
    requires AllOk(s) && !Busy(s)
    ensures var t := After(s, CloseClients);
            t.registered == {} && t.clients.Keys == s.clients.Keys && forall c :: c in t.clients ==> t.clients[c].closed
  {
  }

  lemma ReceiveDoes(s: State, k: ClientId)
    requires k in s.clients && s.clients[k].buffer != []
    ensures var t := After(s, Receive(k));
            && k in t.clients && t.clients[k].got == s.clients[k].got + [s.clients[k].buffer[0]]
            && t.clients[k].buffer == s.clients[k].buffer[1..]
  {
  }

  // ---------------------------------------------------------------- events from before the registration

  // What a client has received from a stream, or will when it reads on.
  function From(s: State, k: ClientId, id: StreamId): seq<Event>
    requires k in s.clients
  {
    Of(s.clients[k].got + s.clients[k].buffer, id)
  }

  lemma SinceStep(s: State, st: Step, k: ClientId, id: StreamId)
    requires k in s.clients && id in s.streams
    ensures k in After(s, st).clients && After(s, st).clients[k].since == s.clients[k].since
    ensures id in After(s, st).streams
  {
  }

  lemma {:induction false} SinceKept(s: State, steps: seq<Step>, k: ClientId, id: StreamId)
    requires k in s.clients && id in s.streams
    ensures k in RunAll(s, steps).clients && RunAll(s, steps).clients[k].since == s.clients[k].since
    ensures id in RunAll(s, steps).streams
    decreases |steps|
  {
    if steps != [] {
      SinceStep(s, steps[0], k, id);
      SinceKept(After(s, steps[0]), steps[1..], k, id);
    }
  }

  lemma RunCons(s: State, st: Step, rest: seq<Step>)
    ensures RunAll(s, [st] + rest) == RunAll(After(s, st), rest)
  {
    assert ([st] + rest)[1..] == rest;
  }

  lemma FirstItem(c: Client, id: StreamId, e: Event)
    requires c.buffer == [] && c.got == []
    ensures Of(Offer(c, Item(id, e)).got + Offer(c, Item(id, e)).buffer, id) == [e]
  {
    var none: seq<Item> := [];
    assert Offer(c, Item(id, e)).got + Offer(c, Item(id, e)).buffer == none + [Item(id, e)];
    OfSnoc(none, Item(id, e), id);
  }

  lemma BeginHeld(s: State, id: StreamId)
    requires id in s.streams && s.streams[id].pump.Holding?
    ensures var t := After(s, BeginSend(id));
            && t.clients == s.clients && id in t.streams && t.streams[id].emitted == s.streams[id].emitted
            && t.streams[id].pump == Sending(s.streams[id].pump.event, s.registered)
  {
  }

  lemma SendDue(s: State, k: ClientId, id: StreamId)
    requires Due(s, id, k) && !s.clients[k].closed
    ensures var t := After(s, Send(id, k));
            && k in t.clients && t.clients[k] == Offer(s.clients[k], Item(id, s.streams[id].pump.event))
            && id in t.streams && t.streams[id].emitted == s.streams[id].emitted
  {
  }

  lemma TwoSteps(s: State, x: Step, y: Step)
    ensures RunAll(s, [x, y]) == After(After(s, x), y)
  {
    assert [x, y] == [x] + [y] && [y] == [y] + [];
    RunCons(s, x, [y]);
    RunCons(After(s, x), y, []);
  }

  // The event a broadcaster holds goes to every client registered when it takes the lock.
  lemma SendsHeld(s: State, k: ClientId, id: StreamId)
    requires id in s.streams && s.streams[id].pump.Holding? && k in s.registered && k in s.clients
    requires !s.clients[k].closed && s.clients[k].buffer == [] && s.clients[k].got == []
    ensures var t := RunAll(s, [BeginSend(id), Send(id, k)]);
            && k in t.clients && From(t, k, id) == [s.streams[id].pump.event]
            && id in t.streams && t.streams[id].emitted == s.streams[id].emitted
  {
    TwoSteps(s, BeginSend(id), Send(id, k));
    BeginHeld(s, id);
    SendDue(After(s, BeginSend(id)), k, id);
    FirstItem(s.clients[k], id, s.streams[id].pump.event);
  }

  // The run that delivers an old event to a client that has just registered.
  lemma OldEvent(s: State, k: ClientId, id: StreamId) returns (steps: seq<Step>)
    requires AllOk(s) && !Busy(s) && k !in s.clients && id in s.streams
    requires s.streams[id].queue != [] || s.streams[id].pump.Holding?
    ensures var t := RunAll(After(s, Register(k)), steps);
            && k in t.clients && From(t, k, id) != []
            && id in t.streams && t.streams[id].emitted == s.streams[id].emitted
  {
    var joined := After(s, Register(k));
    assert StreamOk(s.streams[id], s.registered);
    if s.streams[id].pump.Holding? {
      SendsHeld(joined, k, id);
      steps := [BeginSend(id), Send(id, k)];
    } else {
      assert s.streams[id].pump.Idle?;
      var taken := After(joined, Inner(id, Take));
      SendsHeld(taken, k, id);
      RunCons(joined, Inner(id, Take), [BeginSend(id), Send(id, k)]);
      steps := [Inner(id, Take)] + [BeginSend(id), Send(id, k)];
    }
  }

  // Whatever happens, as long as the stream emits nothing more the client receives nothing from it.
  ghost predicate SilentWhileQuiet(s: State, k: ClientId, id: StreamId) {
    forall steps ::
      k in RunAll(s, steps).clients && id in s.streams && id in RunAll(s, steps).streams
      && RunAll(s, steps).streams[id].emitted == s.streams[id].emitted ==>
        From(RunAll(s, steps), k, id) == []
  }

  lemma NothingOld(s: State, k: ClientId, id: StreamId, steps: seq<Step>)
    requires AllOk(s) && k in s.clients && id in s.streams && Mark(s.clients[k].since, id) == |s.streams[id].emitted|
    requires id in RunAll(s, steps).streams && RunAll(s, steps).streams[id].emitted == s.streams[id].emitted
    ensures k in RunAll(s, steps).clients && From(RunAll(s, steps), k, id) == []
  {
    SinceKept(s, steps, k, id);
    EveryRunKeeps(s, steps);
    var t := RunAll(s, steps);
    assert StreamOk(t.streams[id], t.registered) && WindowOk(t.clients[k], k, id, t.streams[id], k in t.registered);
    WindowDelivers(t.clients[k], k, id, t.streams[id], k in t.registered);
    NothingIn(From(t, k, id), t.streams[id].emitted, Reached(t.clients[k], k, id, t.streams[id], k in t.registered));
  }

  lemma Shorter(xs: seq<Event>, ys: seq<Event>)
    requires Subsequence(xs, ys)
    ensures |xs| <= |ys|
  {
    var at :| Embeds(xs, ys, at);
    if at != [] {
      InOrder(at, |at| - 1);
    }
  }

  lemma NothingIn(xs: seq<Event>, ys: seq<Event>, to: int)
    requires |ys| <= to <= |ys| && Subsequence(xs, ys[|ys|..to])
    ensures xs == []
  {
    Shorter(xs, ys[|ys|..to]);
  }

  // A client receives only events emitted after it registered, in every continuation, if and only if
  // the stream had nothing waiting then; otherwise some continuation brings it an older one.
  lemma OldEventsExact(s: State, k: ClientId, id: StreamId)
    requires AllOk(s) && !Busy(s) && k !in s.clients && id in s.streams
    ensures SilentWhileQuiet(After(s, Register(k)), k, id) <==> s.streams[id].queue == [] && !s.streams[id].pump.Holding?
  {
    var joined := After(s, Register(k));
    KeepsRegister(s, k);
    assert StreamOk(s.streams[id], s.registered);
    if s.streams[id].queue == [] && !s.streams[id].pump.Holding? {
      forall steps | k in RunAll(joined, steps).clients && id in RunAll(joined, steps).streams
                     && RunAll(joined, steps).streams[id].emitted == joined.streams[id].emitted
        ensures From(RunAll(joined, steps), k, id) == []
      {
        NothingOld(joined, k, id, steps);
      }
    } else {
      var steps := OldEvent(s, k, id);
      assert !SilentWhileQuiet(joined, k, id);
    }
  }

  // ---------------------------------------------------------------- the router's client set

  function Kept(buffer: seq<Item>, x: Item): seq<Item> {
    if |buffer| < CLIENT_CAPACITY then buffer + [x] else buffer
  }

  // The registered clients with their channels' contents, and the channels closed so far, in order.
  class EventClients {
    var open: map<ClientId, seq<Item>>
    var closed: seq<ClientId>

    // No channel was closed twice, and none of a registered client was closed.
    ghost predicate Valid()
      reads this
    {
      && (forall i, j :: 0 <= i < j < |closed| ==> closed[i] != closed[j])
      && (forall i :: 0 <= i < |closed| ==> closed[i] !in open)
    }

    constructor ()
      ensures Valid() && open == map[] && closed == []
    {
      open, closed := map[], [];
    }

    // A new client has a new channel.
    method Register(k: ClientId)
      requires Valid() && k !in open && k !in closed
      modifies this
      ensures Valid() && open == old(open)[k := []] && closed == old(closed)
    {
      open := open[k := []];
    }

    method Unregister(k: ClientId)
      requires Valid()
      modifies this
      ensures Valid() && open == old(open) - {k}
      ensures closed == old(closed) + if k in old(open) then [k] else []
    {
      if k in open {
        open := open - {k};
        closed := closed + [k];
      }
    }

    // One event to every registered client, in whatever order, without waiting for any.
    method Broadcast(x: Item)
      requires Valid()
      modifies this
      ensures Valid() && closed == old(closed)
      ensures open == map k | k in old(open) :: if |old(open)[k]| < 64 then old(open)[k] + [x] else old(open)[k]
    {
      var left := open.Keys;
      while left != {}
        invariant Valid() && closed == old(closed) && left <= open.Keys == old(open).Keys
        invariant forall k :: k in open ==> open[k] == if k in left then old(open)[k] else Kept(old(open)[k], x)
        decreases |left|
      {
        var k :| k in left;
        if |open[k]| < CLIENT_CAPACITY {
          open := open[k := open[k] + [x]];
        }
        left := left - {k};
      }
    }

    // Close: every client leaves, and its channel is closed once.
    method CloseAll()
      requires Valid()
      modifies this
      ensures Valid() && open == map[]
      ensures forall k :: k in closed <==> k in old(closed) || k in old(open)
    {
      while open != map[]
        invariant Valid()
        invariant forall k :: k in closed || k in open <==> k in old(closed) || k in old(open)
        decreases |open|
      {
        var k :| k in open;
        open := open - {k};
        closed := closed + [k];
      }
    }
  }
}
