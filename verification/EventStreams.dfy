/** One podman event stream: its subscriptions, its channel, and how it is closed. */
module EventStreams {
  import opened Common

  type Host = string
  type SubId = nat

  // An event with the host it happened on.
  datatype Event = Event(host: Host, body: string)
  type ClientId = nat

  const CHANNEL_CAPACITY := 256

  // A subscription and its goroutine: `sending` is the event it is offering to the channel, and `done`
  // says whether its done channel has been closed.  History: the lines it has read, those it has put
  // into the channel, and the one it gave up when it saw the cancellation.
  datatype Sub = Sub(
    host: Host, running: bool, cancelled: bool, sending: Option<Event>, done: bool,
    read: seq<string>, put: seq<string>, given: seq<string>)

  // Closing holds the subscriptions that Close has yet to cancel and wait for.
  datatype Phase = Open | Closing(left: seq<SubId>) | Closed

  // The broadcaster of this stream: waiting for an event, having received one, sending it to clients
  // under the read lock, or through.
  datatype Pump = Idle | Holding(event: Event) | Sending(event: Event, left: set<ClientId>) | Ended

  // `shut`: the event channel is closed.  `panicked`: a send on a closed channel or a second close
  // happened.  `emitted` and `sent` are history: the events put into the channel, and those the
  // broadcaster has begun to send to clients.
  datatype Stream = Stream(
    phase: Phase, table: map<Host, SubId>, subs: map<SubId, Sub>, queue: seq<Event>, shut: bool,
    pump: Pump, emitted: seq<Event>, sent: seq<Event>, panicked: bool)

  datatype Op =
    | Subscribe(host: Host, known: bool, id: SubId)
    | Read(id: SubId, line: string)      // a subscription's goroutine reads a line
    | Emit(id: SubId)                   // and sends it
    | GiveUp(id: SubId)                 // or sees the cancellation
    | Finish(id: SubId)                 // and ends, closing its done channel
    | BeginClose(order: seq<SubId>)     // Close, under the lock
    | CancelNext
    | WaitNext
    | Shut
    | Take                              // the broadcaster receives, or sees the closed channel
    | Lock(clients: set<ClientId>)      // and takes the read lock
    | Served(client: ClientId)          // one client has been offered the event
    | Unlock

  const NEW := Stream(Open, map[], map[], [], false, Idle, [], [], false)

  function SetSub(s: Stream, id: SubId, sub: Sub): Stream {
    s.(subs := s.subs[id := sub])
  }

  function OnSubscribe(s: Stream, host: Host, known: bool, id: SubId): Stream {
    if !s.phase.Open? || host in s.table || !known || id in s.subs then s
    else s.(table := s.table[host := id], subs := s.subs[id := Sub(host, true, false, None, false, [], [], [])])
  }

  function OnSub(s: Stream, op: Op): Stream
    requires op.Read? || op.Emit? || op.GiveUp? || op.Finish?
  {
    if op.id !in s.subs || !s.subs[op.id].running then s
    else
      var sub := s.subs[op.id];
      match op
      case Read(id, line) =>
        if sub.sending.Some? || sub.cancelled then s
        else SetSub(s, id, sub.(sending := Some(Event(sub.host, line)), read := sub.read + [line]))
      case Emit(id) =>
        if sub.sending.None? then s
        else if s.shut then s.(panicked := true)
        else if |s.queue| >= CHANNEL_CAPACITY then s
        else
          SetSub(s, id, sub.(sending := None, put := sub.put + [sub.sending.value.body]))
            .(queue := s.queue + [sub.sending.value], emitted := s.emitted + [sub.sending.value])
      case GiveUp(id) =>
        if !sub.cancelled || sub.sending.None? then s
        else SetSub(s, id, sub.(sending := None, given := sub.given + [sub.sending.value.body]))
      case Finish(id) =>
        if !sub.cancelled || sub.sending.Some? then s
        else SetSub(s, id, sub.(running := false, done := true)).(panicked := s.panicked || sub.done)
  }

  function OnClose(s: Stream, op: Op): Stream
    requires op.BeginClose? || op.CancelNext? || op.WaitNext? || op.Shut?
  {
    match op
    case BeginClose(order) =>
      if !s.phase.Open? || multiset(order) != multiset(s.table.Values) then s
      else s.(phase := Closing(order), table := map[])
    case CancelNext =>
      if !s.phase.Closing? || s.phase.left == [] || s.phase.left[0] !in s.subs then s
      else SetSub(s, s.phase.left[0], s.subs[s.phase.left[0]].(cancelled := true))
    case WaitNext =>
      if !s.phase.Closing? || s.phase.left == [] || s.phase.left[0] !in s.subs || !s.subs[s.phase.left[0]].done then s
      else s.(phase := Closing(s.phase.left[1..]))
    case Shut =>
      if !s.phase.Closing? || s.phase.left != [] then s
      else s.(phase := Closed, shut := true, panicked := s.panicked || s.shut)
  }

  function OnPump(s: Stream, op: Op): Stream
    requires op.Take? || op.Lock? || op.Served? || op.Unlock?
  {
    match op
    case Take =>
      if !s.pump.Idle? then s
      else if s.queue != [] then s.(pump := Holding(s.queue[0]), queue := s.queue[1..])
      else if s.shut then s.(pump := Ended) else s
    case Lock(clients) =>
      if !s.pump.Holding? then s
      else s.(pump := Sending(s.pump.event, clients), sent := s.sent + [s.pump.event])
    case Served(c) => if s.pump.Sending? then s.(pump := Sending(s.pump.event, s.pump.left - {c})) else s
    case Unlock => if s.pump.Sending? && s.pump.left == {} then s.(pump := Idle) else s
  }

  function Next(s: Stream, op: Op): Stream {
    if op.Subscribe? then OnSubscribe(s, op.host, op.known, op.id)
    else if op.Read? || op.Emit? || op.GiveUp? || op.Finish? then OnSub(s, op)
    else if op.BeginClose? || op.CancelNext? || op.WaitNext? || op.Shut? then OnClose(s, op)
    else OnPump(s, op)
  }

  function Run(s: Stream, ops: seq<Op>): Stream
    decreases |ops|
  {
    if ops == [] then s else Run(Next(s, ops[0]), ops[1..])
  }

  // ---------------------------------------------------------------- invariant

  // While the stream is open the table lists every subscription ever made, each under its host.
  ghost predicate Tabled(table: map<Host, SubId>, subs: map<SubId, Sub>) {
    && (forall h :: h in table ==> table[h] in subs && subs[table[h]].host == h)
    && (forall i :: i in subs ==> subs[i].host in table && table[subs[i].host] == i)
  }

  ghost predicate OnePerHost(subs: map<SubId, Sub>) {
    forall i, j :: i in subs && j in subs && subs[i].host == subs[j].host ==> i == j
  }

  function Offered(sending: Option<Event>): seq<string> {
    if sending.Some? then [sending.value.body] else []
  }

  // Nothing a goroutine reads is lost: it is in the channel, being offered, or, once the subscription is
  // cancelled, given up.
  ghost predicate GoroutineOk(sub: Sub) {
    && sub.running == !sub.done && (sub.sending.Some? ==> sub.running && sub.sending.value.host == sub.host)
    && sub.read == sub.put + Offered(sub.sending) + sub.given
    && (sub.given != [] ==> sub.cancelled && sub.sending.None?)
  }

  // The lines of one host among the events, in order.
  function LinesOf(events: seq<Event>, host: Host): seq<string> {
    if events == [] then []
    else
      var init, last := LinesOf(events[..|events| - 1], host), events[|events| - 1];
      if last.host == host then init + [last.body] else init
  }

  lemma LinesSnoc(events: seq<Event>, e: Event, host: Host)
    ensures LinesOf(events + [e], host) == LinesOf(events, host) + if e.host == host then [e.body] else []
  {
    assert (events + [e])[..|events|] == events;
  }

  // What was emitted for a host is what its subscription has put into the channel; for a host without
  // one, nothing.
  ghost predicate EmittedOk(emitted: seq<Event>, subs: map<SubId, Sub>) {
    && (forall i :: i in subs ==> LinesOf(emitted, subs[i].host) == subs[i].put)
    && (forall host :: Unknown(subs, host) ==> LinesOf(emitted, host) == [])
  }

  ghost predicate Unknown(subs: map<SubId, Sub>, host: Host) {
    forall i :: i in subs ==> subs[i].host != host
  }

  lemma UnknownBefore(subs: map<SubId, Sub>, id: SubId, sub: Sub, host: Host)
    requires Unknown(subs[id := sub], host) && (id in subs ==> subs[id].host == sub.host)
    ensures Unknown(subs, host) && sub.host != host
  {
    assert subs[id := sub][id] == sub;
    forall i | i in subs
      ensures subs[i].host != host
    {
      assert i in subs[id := sub];
    }
  }

  // Close has waited for every subscription that is not on its list.
  ghost predicate Waited(subs: map<SubId, Sub>, left: seq<SubId>) {
    forall i :: i in subs && i !in left ==> subs[i].done
  }

  ghost predicate PhaseOk(s: Stream) {
    match s.phase
    case Open => Tabled(s.table, s.subs) && !s.shut
    case Closing(left) => s.table == map[] && Waited(s.subs, left) && !s.shut
    case Closed => s.table == map[] && Waited(s.subs, []) && s.shut
  }

  function InHand(p: Pump): seq<Event> {
    if p.Holding? then [p.event] else []
  }

  ghost predicate SubsOk(s: Stream) {
    PhaseOk(s) && OnePerHost(s.subs) && forall i :: i in s.subs ==> GoroutineOk(s.subs[i])
  }

  ghost predicate Inv(s: Stream) {
    && !s.panicked && SubsOk(s)
    && s.emitted == s.sent + InHand(s.pump) + s.queue
    && EmittedOk(s.emitted, s.subs) && |s.queue| <= CHANNEL_CAPACITY
    && (s.pump.Ended? ==> s.queue == [] && s.shut)
  }

  lemma EmittedNew(emitted: seq<Event>, subs: map<SubId, Sub>, id: SubId, sub: Sub)
    requires EmittedOk(emitted, subs) && id !in subs && sub.put == [] && Unknown(subs, sub.host)
    ensures EmittedOk(emitted, subs[id := sub])
  {
    forall host | Unknown(subs[id := sub], host)
      ensures LinesOf(emitted, host) == []
    {
      UnknownBefore(subs, id, sub, host);
    }
  }

  lemma SubscribeKeeps(s: Stream, host: Host, known: bool, id: SubId)
    requires Inv(s)
    ensures Inv(OnSubscribe(s, host, known, id))
  {
    if s.phase.Open? && host !in s.table && known && id !in s.subs {
      EmittedNew(s.emitted, s.subs, id, Sub(host, true, false, None, false, [], [], []));
    }
  }

  lemma EmittedSame(emitted: seq<Event>, subs: map<SubId, Sub>, id: SubId, sub: Sub)
    requires EmittedOk(emitted, subs) && id in subs && sub.host == subs[id].host && sub.put == subs[id].put
    ensures EmittedOk(emitted, subs[id := sub])
  {
    forall host | Unknown(subs[id := sub], host)
      ensures LinesOf(emitted, host) == []
    {
      UnknownBefore(subs, id, sub, host);
    }
  }

  // Changing how one goroutine stands, not its host.
  lemma SubsKept(s: Stream, id: SubId, sub: Sub)
    requires SubsOk(s) && id in s.subs && sub.host == s.subs[id].host && GoroutineOk(sub) && (s.subs[id].done ==> sub.done)
    ensures SubsOk(SetSub(s, id, sub))
  {
  }

  lemma SetSubKeeps(s: Stream, id: SubId, sub: Sub)
    requires Inv(s) && id in s.subs && sub.host == s.subs[id].host && sub.put == s.subs[id].put
    requires GoroutineOk(sub) && (s.subs[id].done ==> sub.done)
    ensures Inv(SetSub(s, id, sub))
  {
    SubsKept(s, id, sub);
    EmittedSame(s.emitted, s.subs, id, sub);
  }

  lemma EmittedMore(emitted: seq<Event>, subs: map<SubId, Sub>, id: SubId, sub: Sub, e: Event)
    requires EmittedOk(emitted, subs) && OnePerHost(subs) && id in subs && sub.host == subs[id].host == e.host
    requires sub.put == subs[id].put + [e.body]
    ensures EmittedOk(emitted + [e], subs[id := sub])
  {
    var subs' := subs[id := sub];
    forall i | i in subs'
      ensures LinesOf(emitted + [e], subs'[i].host) == subs'[i].put
    {
      LinesSnoc(emitted, e, subs'[i].host);
    }
    forall host | Unknown(subs', host)
      ensures LinesOf(emitted + [e], host) == []
    {
      LinesSnoc(emitted, e, host);
      UnknownBefore(subs, id, sub, host);
    }
  }

  lemma PutOk(sub: Sub)
    requires GoroutineOk(sub) && sub.sending.Some?
    ensures GoroutineOk(sub.(sending := None, put := sub.put + [sub.sending.value.body]))
  {
    assert sub.put + [sub.sending.value.body] + [] + sub.given == sub.put + [sub.sending.value.body] + sub.given;
  }

  lemma EmitKeeps(s: Stream, id: SubId)
    requires Inv(s) && id in s.subs && s.subs[id].running && s.subs[id].sending.Some? && |s.queue| < CHANNEL_CAPACITY
    ensures !s.shut && Inv(OnSub(s, Emit(id)))
  {
    var sub := s.subs[id];
    assert GoroutineOk(sub);
    var e := sub.sending.value;
    var sub' := sub.(sending := None, put := sub.put + [e.body]);
    PutOk(sub);
    SubsKept(s, id, sub');
    EmittedMore(s.emitted, s.subs, id, sub', e);
    Longer(s.sent, InHand(s.pump), s.queue, e);
  }

  lemma Longer(a: seq<Event>, b: seq<Event>, c: seq<Event>, e: Event)
    ensures a + b + c + [e] == a + b + (c + [e])
  {
  }

  lemma SubKeeps(s: Stream, op: Op)
    requires Inv(s) && (op.Read? || op.Emit? || op.GiveUp? || op.Finish?)
    ensures Inv(OnSub(s, op))
  {
    if op.id in s.subs && s.subs[op.id].running {
      var sub := s.subs[op.id];
      assert GoroutineOk(sub);
      match op {
        case Read(id, line) =>
          if sub.sending.None? && !sub.cancelled {
            SetSubKeeps(s, id, sub.(sending := Some(Event(sub.host, line)), read := sub.read + [line]));
          }
        case Emit(id) =>
          if sub.sending.Some? && |s.queue| < CHANNEL_CAPACITY {
            EmitKeeps(s, id);
          }
        case GiveUp(id) =>
          if sub.cancelled && sub.sending.Some? {
            GivenUp(sub);
            SetSubKeeps(s, id, sub.(sending := None, given := sub.given + [sub.sending.value.body]));
          }
        case Finish(id) =>
          if sub.sending.None? {
            SetSubKeeps(s, id, sub.(running := false, done := true));
          }
      }
    }
  }

  lemma GivenUp(sub: Sub)
    requires GoroutineOk(sub) && sub.sending.Some? && sub.given == []
    ensures sub.read == sub.put + Offered(None) + (sub.given + [sub.sending.value.body])
  {
  }

  lemma CloseKeeps(s: Stream, op: Op)
    requires Inv(s) && (op.BeginClose? || op.CancelNext? || op.WaitNext? || op.Shut?)
    ensures Inv(OnClose(s, op))
  {
    match op {
      case BeginClose(order) =>
        if s.phase.Open? && multiset(order) == multiset(s.table.Values) {
          forall i | i in s.subs
            ensures i in order
          {
            assert s.table[s.subs[i].host] == i;
            assert i in multiset(order);
          }
        }
      case CancelNext =>
        if s.phase.Closing? && s.phase.left != [] && s.phase.left[0] in s.subs {
          var id := s.phase.left[0];
          assert GoroutineOk(s.subs[id]);
          SetSubKeeps(s, id, s.subs[id].(cancelled := true));
        }
      case WaitNext =>
      case Shut =>
    }
  }

  lemma TakeKeeps(s: Stream)
    requires Inv(s)
    ensures Inv(OnPump(s, Take))
  {
    if s.pump.Idle? && s.queue != [] {
      assert s.queue == [s.queue[0]] + s.queue[1..];
      assert s.sent + InHand(Idle) + s.queue == s.sent + [s.queue[0]] + s.queue[1..];
    }
  }

  lemma LockKeeps(s: Stream, clients: set<ClientId>)
    requires Inv(s)
    ensures Inv(OnPump(s, Lock(clients)))
  {
    if s.pump.Holding? {
      assert s.sent + [s.pump.event] + [] + s.queue == s.sent + InHand(s.pump) + s.queue;
    }
  }

  lemma PumpKeeps(s: Stream, op: Op)
    requires Inv(s) && (op.Take? || op.Lock? || op.Served? || op.Unlock?)
    ensures Inv(OnPump(s, op))
  {
    if op.Take? {
      TakeKeeps(s);
    } else if op.Lock? {
      LockKeeps(s, op.clients);
    }
  }

  lemma InvStep(s: Stream, op: Op)
    requires Inv(s)
    ensures Inv(Next(s, op))
  {
    if op.Subscribe? {
      SubscribeKeeps(s, op.host, op.known, op.id);
    } else if op.Read? || op.Emit? || op.GiveUp? || op.Finish? {
      SubKeeps(s, op);
    } else if op.BeginClose? || op.CancelNext? || op.WaitNext? || op.Shut? {
      CloseKeeps(s, op);
    } else {
      PumpKeeps(s, op);
    }
  }

  // Once Close has begun it stays so, and no subscription is ever added.
  lemma ClosedStep(s: Stream, op: Op)
    requires !s.phase.Open?
    ensures !Next(s, op).phase.Open? && Next(s, op).subs.Keys == s.subs.Keys
    ensures Inv(s) ==> Next(s, op).table == map[]
  {
  }

  lemma {:induction false} EveryRun(s: Stream, ops: seq<Op>)
    requires Inv(s)
    ensures Inv(Run(s, ops))
    ensures !s.phase.Open? ==> Run(s, ops).subs.Keys == s.subs.Keys && Run(s, ops).table == map[]
    decreases |ops|
  {
    if ops != [] {
      InvStep(s, ops[0]);
      if !s.phase.Open? {
        ClosedStep(s, ops[0]);
      }
      EveryRun(Next(s, ops[0]), ops[1..]);
    }
  }

  // Every run of one stream: no send on a closed channel and no channel closed twice; a host never has
  // two subscriptions; once the channel is closed no goroutine can send; and what the broadcaster
  // sends to clients is the emitted events in order, none skipped.  For each host these are the lines
  // its subscription read, in order; one it has read and not emitted is being offered, or was given up
  // after the cancellation.
  lemma StreamSafe(ops: seq<Op>)
    ensures var s := Run(NEW, ops);
            && !s.panicked && OnePerHost(s.subs)
            && (s.shut ==> forall i :: i in s.subs ==> s.subs[i].done && s.subs[i].sending.None?)
            && s.sent <= s.emitted && s.emitted == s.sent + InHand(s.pump) + s.queue && |s.queue| <= 256
            && (forall i :: i in s.subs ==>
                  && s.subs[i].read == LinesOf(s.emitted, s.subs[i].host) + Offered(s.subs[i].sending) + s.subs[i].given
                  && (s.subs[i].given != [] ==> s.subs[i].cancelled))
  {
    EveryRun(NEW, ops);
    var s := Run(NEW, ops);
    assert s.emitted[..|s.sent|] == s.sent;
    forall i | i in s.subs
      ensures s.shut ==> s.subs[i].done && s.subs[i].sending.None?
      ensures s.subs[i].read == LinesOf(s.emitted, s.subs[i].host) + Offered(s.subs[i].sending) + s.subs[i].given
      ensures s.subs[i].given != [] ==> s.subs[i].cancelled
    {
      assert GoroutineOk(s.subs[i]);
    }
  }

  // ---------------------------------------------------------------- subscribing and closing work

  // Subscribing to a known host of an open stream, for the first time, starts its goroutine.
  lemma SubscribeStarts(s: Stream, host: Host, id: SubId)
    requires s.phase.Open? && host !in s.table && id !in s.subs
    ensures var t := Next(s, Subscribe(host, true, id));
            && host in t.table && t.table[host] == id && id in t.subs
            && t.subs[id] == Sub(host, true, false, None, false, [], [], [])
            && t.table - {host} == s.table && t.subs - {id} == s.subs
    ensures Next(s, Subscribe(host, false, id)) == s
  {
    assert s.table[host := id] - {host} == s.table;
  }

  // A line that is read goes into the channel, with its host, when there is room.
  lemma LineEmitted(s: Stream, id: SubId, line: string)
    requires id in s.subs && s.subs[id].running && !s.subs[id].cancelled && s.subs[id].sending.None?
    requires !s.shut && |s.queue| < 256
    ensures var t := Next(Next(s, Read(id, line)), Emit(id));
            t.queue == s.queue + [Event(s.subs[id].host, line)] && t.emitted == s.emitted + [Event(s.subs[id].host, line)]
  {
    var r := Next(s, Read(id, line));
    assert r.subs[id].sending == Some(Event(s.subs[id].host, line));
  }

  lemma RunCons(s: Stream, op: Op, rest: seq<Op>)
    ensures Run(s, [op] + rest) == Run(Next(s, op), rest)
  {
    assert ([op] + rest)[1..] == rest;
  }

  lemma FourSteps(s: Stream, id: SubId)
    requires Inv(s)
    ensures Inv(Next(s, CancelNext)) && Inv(Next(Next(s, CancelNext), GiveUp(id)))
    ensures Inv(Next(Next(Next(s, CancelNext), GiveUp(id)), Finish(id)))
    ensures Inv(Next(Next(Next(Next(s, CancelNext), GiveUp(id)), Finish(id)), WaitNext))
  {
    InvStep(s, CancelNext);
    InvStep(Next(s, CancelNext), GiveUp(id));
    InvStep(Next(Next(s, CancelNext), GiveUp(id)), Finish(id));
    InvStep(Next(Next(Next(s, CancelNext), GiveUp(id)), Finish(id)), WaitNext);
  }

  lemma Cancels(s: Stream)
    requires s.phase.Closing? && s.phase.left != [] && s.phase.left[0] in s.subs
    ensures var t := Next(s, CancelNext);
            t.phase == s.phase && t.subs == s.subs[s.phase.left[0] := s.subs[s.phase.left[0]].(cancelled := true)]
  {
  }

  lemma Waits(s: Stream)
    requires s.phase.Closing? && s.phase.left != [] && s.phase.left[0] in s.subs && s.subs[s.phase.left[0]].done
    ensures Next(s, WaitNext).phase == Phase.Closing(s.phase.left[1..]) && Next(s, WaitNext).subs == s.subs
  {
  }

  // What Close does for one subscription: cancel it, let its goroutine end, and wait for it.
  lemma EndsOne(s: Stream)
    requires Inv(s) && s.phase.Closing? && s.phase.left != [] && s.phase.left[0] in s.subs
    ensures var id := s.phase.left[0];
            var t := Next(Next(Next(Next(s, CancelNext), GiveUp(id)), Finish(id)), WaitNext);
            Inv(t) && t.phase == Phase.Closing(s.phase.left[1..]) && t.subs.Keys == s.subs.Keys
  {
    var id := s.phase.left[0];
    FourSteps(s, id);
    Cancels(s);
    EndsGoroutine(Next(s, CancelNext), id);
    Waits(Next(Next(Next(s, CancelNext), GiveUp(id)), Finish(id)));
  }

  lemma EndsGoroutine(s: Stream, id: SubId)
    requires SubsOk(s) && id in s.subs && s.subs[id].cancelled
    ensures var t := Next(Next(s, GiveUp(id)), Finish(id));
            id in t.subs && t.subs[id].done && t.phase == s.phase && t.subs.Keys == s.subs.Keys
  {
    assert GoroutineOk(s.subs[id]);
    GivesUp(s, id);
    Finishes(Next(s, GiveUp(id)), id);
  }

  lemma GivesUp(s: Stream, id: SubId)
    requires id in s.subs && s.subs[id].cancelled && GoroutineOk(s.subs[id])
    ensures var t := Next(s, GiveUp(id));
            && id in t.subs && t.subs[id].cancelled && t.subs[id].sending.None? && t.phase == s.phase && t.subs.Keys == s.subs.Keys
            && t.subs[id].running == s.subs[id].running && t.subs[id].done == s.subs[id].done
  {
    assert s.subs[id := s.subs[id]] == s.subs;
  }

  lemma Finishes(s: Stream, id: SubId)
    requires id in s.subs && s.subs[id].cancelled && s.subs[id].sending.None? && s.subs[id].running == !s.subs[id].done
    ensures var t := Next(s, Finish(id));
            id in t.subs && t.subs[id].done && t.phase == s.phase && t.subs.Keys == s.subs.Keys
  {
  }

  ghost predicate AllKnown(s: Stream) {
    s.phase.Closing? ==> forall i :: 0 <= i < |s.phase.left| ==> s.phase.left[i] in s.subs
  }

  // Closing can always be completed, and then the channel is closed.
  lemma {:induction false} Closes(s: Stream) returns (ops: seq<Op>)
    requires Inv(s) && s.phase.Closing? && AllKnown(s)
    ensures Run(s, ops).phase.Closed? && Run(s, ops).shut
    decreases |s.phase.left|
  {
    if s.phase.left == [] {
      ops := [Shut];
      RunCons(s, Shut, []);
      assert [Shut] + [] == [Shut];
    } else {
      var id := s.phase.left[0];
      EndsOne(s);
      var t := Next(Next(Next(Next(s, CancelNext), GiveUp(id)), Finish(id)), WaitNext);
      var rest := Closes(t);
      var four := [WaitNext] + rest;
      RunCons(Next(Next(Next(s, CancelNext), GiveUp(id)), Finish(id)), WaitNext, rest);
      RunCons(Next(Next(s, CancelNext), GiveUp(id)), Finish(id), four);
      RunCons(Next(s, CancelNext), GiveUp(id), [Finish(id)] + four);
      RunCons(s, CancelNext, [GiveUp(id)] + ([Finish(id)] + four));
      ops := [CancelNext] + ([GiveUp(id)] + ([Finish(id)] + four));
    }
  }

  // ---------------------------------------------------------------- the locked sections

  class EventStream {
    var subscriptions: map<Host, SubId>
    var closed: bool
    const hosts: set<Host>

    constructor (known: set<Host>)
      ensures subscriptions == map[] && !closed && hosts == known
    {
      subscriptions, closed, hosts := map[], false, known;
    }

    // What of a stream's state these fields are.
    ghost predicate Shows(s: Stream)
      reads this
    {
      s.table == subscriptions && closed == !s.phase.Open?
    }

    method Subscribe(host: Host, id: SubId, ghost s: Stream) returns (ok: bool, added: bool, ghost s': Stream)
      requires Shows(s) && Inv(s) && id !in s.subs
      modifies this
      ensures s' == Next(s, Op.Subscribe(host, host in hosts, id)) && Shows(s') && Inv(s')
      ensures ok == (!old(closed) && (host in old(subscriptions) || host in hosts))
      ensures added <==> ok && host !in old(subscriptions)
    {
      s' := Next(s, Op.Subscribe(host, host in hosts, id));
      InvStep(s, Op.Subscribe(host, host in hosts, id));
      if closed {
        return false, false, s';
      }
      if host in subscriptions {
        return true, false, s';
      }
      if host !in hosts {
        return false, false, s';
      }
      subscriptions := subscriptions[host := id];
      return true, true, s';
    }

    // The part of Close under the lock: empties the table and returns what has to be waited for.
    method BeginClose(ghost s: Stream) returns (first: bool, subs: seq<SubId>, ghost s': Stream)
      requires Shows(s) && Inv(s)
      modifies this
      ensures first == !old(closed) && closed && Inv(s') && Shows(s')
      ensures s' == if first then Next(s, Op.BeginClose(subs)) else s
      ensures first ==> forall i :: i in s.subs ==> i in subs
    {
      subs := [];
      if closed {
        return false, [], s;
      }
      closed := true;
      subs, subscriptions := Drain(subscriptions, s);
      ClosedBy(s, subs);
      s', first := Next(s, Op.BeginClose(subs)), true;
    }
  }

  // Ranging over the table while deleting from it.
  method Drain(table: map<Host, SubId>, ghost s: Stream) returns (subs: seq<SubId>, rest: map<Host, SubId>)
    requires Inv(s) && s.phase.Open? && s.table == table
    ensures rest == map[] && multiset(subs) == multiset(table.Values)
  {
    subs, rest := [], table;
    while rest != map[]
      invariant forall h :: h in rest ==> h in table && table[h] == rest[h]
      invariant multiset(subs) + multiset(rest.Values) == multiset(table.Values)
      decreases |rest|
    {
      var host :| host in rest;
      DropValue(s, rest, host);
      subs := subs + [rest[host]];
      rest := rest - {host};
    }
    assert multiset(rest.Values) == multiset{};
  }

  lemma ClosedBy(s: Stream, order: seq<SubId>)
    requires Inv(s) && s.phase.Open? && multiset(order) == multiset(s.table.Values)
    ensures var t := Next(s, BeginClose(order)); Inv(t) && t.table == map[] && !t.phase.Open?
    ensures forall i :: i in s.subs ==> i in order
  {
    InvStep(s, BeginClose(order));
    forall i | i in s.subs
      ensures i in order
    {
      assert s.table[s.subs[i].host] == i;
      assert i in multiset(order);
    }
  }

  lemma DropValue(s: Stream, m: map<Host, SubId>, host: Host)
    requires Inv(s) && s.phase.Open? && host in m
    requires forall h :: h in m ==> h in s.table && s.table[h] == m[h]
    ensures multiset(m.Values) == multiset((m - {host}).Values) + multiset{m[host]}
  {
    var rest := m - {host};
    forall h | h in rest
      ensures rest[h] != m[host]
    {
      assert s.subs[s.table[h]].host == h && s.subs[s.table[host]].host == host;
    }
    forall v | v in m.Values
      ensures v in rest.Values + {m[host]}
    {
      var h :| h in m && m[h] == v;
      assert h != host ==> rest[h] == v;
    }
    assert m.Values == rest.Values + {m[host]};
  }
}
