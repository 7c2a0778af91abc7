/** The manager-agent protocol as interleaved steps.

    Every agent has one connection made of two FIFO queues.  A plain command occupies the single
    pending slot of its agent (the manager's `commands` map) together with a reply channel of
    capacity one; log and event streams share the same connection and are told apart by callbacks
    keyed by request id.  A run is any sequence of steps: a step that is not enabled changes nothing,
    so every interleaving of callers, the manager's receive loops, the agents' receive loops and the
    agents' stream goroutines is a run. */
module Protocol {
  import opened Common

  type AgentId = string
  type RequestId = string
  type CallId = nat
  type Body = nat

  datatype Envelope = Command(id: RequestId) | StreamStart(id: RequestId) | StreamStop(id: RequestId)

  // `body` stands for what a message carries.
  datatype Message = Message(agent: AgentId, id: RequestId, body: Body)

  // A message the manager's receive loop holds, with the reply channel it looked up for it.
  datatype Delivery = Delivery(msg: Message, call: CallId)

  // One agent connection.  `working` holds the envelopes the agent has received and not yet answered
  // (possibly several after a reconnect) and `streams` the stream goroutines that may still send.
  // `asked` and `started` are the history of what was sent to the agent: the calls whose command ids
  // it got, and the stream ids it was told to start.
  datatype Link = Link(
    toAgent: seq<Envelope>, working: seq<Envelope>, streams: multiset<RequestId>,
    toManager: seq<Message>, inHand: Option<Delivery>,
    asked: map<RequestId, CallId>, started: set<RequestId>)

  // One invocation of SendCommand: registered in the pending map, waiting after a successful send,
  // leaving once the select has fired and the deferred delete is still to run, done afterwards.
  datatype Phase = Registered | Waiting | Leaving(result: Option<Message>) | Done(result: Option<Message>)

  datatype Call = Call(agent: AgentId, id: RequestId, phase: Phase, slot: Option<Message>)

  datatype State = State(
    links: map<AgentId, Link>,
    commands: map<AgentId, CallId>,
    calls: map<CallId, Call>,
    callbacks: map<RequestId, seq<Message>>,
    owner: map<RequestId, AgentId>,
    issued: set<RequestId>)

  datatype CallerStep = Begin(agent: AgentId, id: RequestId) | Send(ok: bool) | Receive | Abandon | Leave
  datatype StreamStep = Register(agent: AgentId) | Unregister | SendStart | SendStop | Consume
  datatype AgentStep = Connect | Take | Act(index: nat, answer: Option<Body>) | EmitChunk(id: RequestId, body: Body) | End(id: RequestId)
  datatype ManagerStep = Route | Deliver

  datatype Step =
    | Caller(call: CallId, c: CallerStep)
    | Streamer(stream: RequestId, t: StreamStep)
    | Agent(agent: AgentId, g: AgentStep)
    | Manager(agent: AgentId, m: ManagerStep)

  // ---------------------------------------------------------------- one connection

  const NEW_LINK := Link([], [], multiset{}, [], None, map[], {})

  function Enqueue(l: Link, e: Envelope): Link {
    l.(toAgent := l.toAgent + [e])
  }

  function Asking(l: Link, id: RequestId, c: CallId): Link {
    Enqueue(l, Command(id)).(asked := l.asked[id := c])
  }

  function Starting(l: Link, id: RequestId): Link {
    Enqueue(l, StreamStart(id)).(started := l.started + {id})
  }

  function Emit(l: Link, m: Message): Link {
    l.(toManager := l.toManager + [m])
  }

  // The agent handles one received envelope (handleStreamCommand): a command is answered once, or
  // not at all when sending fails; a stream start spawns a goroutine, or is answered with an error;
  // a stop only cancels, and a cancelled goroutine may still flush.
  function Handle(a: AgentId, l: Link, i: nat, answer: Option<Body>): Link
    requires i < |l.working|
  {
    var done := l.(working := l.working[..i] + l.working[i + 1..]);
    match l.working[i]
    case Command(id) => if answer.Some? then Emit(done, Message(a, id, answer.value)) else done
    case StreamStart(id) =>
      if answer.Some? then Emit(done, Message(a, id, answer.value)) else done.(streams := done.streams + multiset{id})
    case StreamStop(_) => done
  }

  function ApplyAgent(a: AgentId, l: Link, step: AgentStep): Link {
    match step
    case Connect => l.(toAgent := [], toManager := [])  // goroutines of the old stream may outlive it
    case Take =>
      if l.toAgent == [] then l
      else l.(toAgent := l.toAgent[1..], working := l.working + [l.toAgent[0]])
    case Act(i, answer) => if i < |l.working| then Handle(a, l, i, answer) else l
    case EmitChunk(id, body) => if id in l.streams then Emit(l, Message(a, id, body)) else l
    case End(id) => l.(streams := l.streams - multiset{id})
  }

  // ---------------------------------------------------------------- steps

  function Init(): State {
    State(map[], map[], map[], map[], map[], {})
  }

  function SetPhase(calls: map<CallId, Call>, c: CallId, p: Phase): map<CallId, Call>
    requires c in calls
  {
    calls[c := calls[c].(phase := p)]
  }

  function ApplyCaller(s: State, c: CallId, step: CallerStep): State {
    if step.Begin? then
      var a, id := step.agent, step.id;
      if c in s.calls || a !in s.links || id in s.issued || id == "" then s
      else if a in s.commands then
        s.(issued := s.issued + {id}, calls := s.calls[c := Call(a, id, Done(None), None)])
      else
        s.(issued := s.issued + {id}, calls := s.calls[c := Call(a, id, Registered, None)],
           commands := s.commands[a := c])
    else if c !in s.calls || s.calls[c].agent !in s.links then s
    else
      var call := s.calls[c];
      match step
      case Begin(_, _) => s
      case Send(ok) =>
        if !call.phase.Registered? then s
        else if !ok then s.(calls := SetPhase(s.calls, c, Leaving(None)))
        else
          var l := s.links[call.agent];
          s.(calls := SetPhase(s.calls, c, Waiting),
             links := s.links[call.agent := Asking(l, call.id, c)])
      case Receive =>
        if call.phase.Waiting? && call.slot.Some?
        then s.(calls := SetPhase(s.calls, c, Leaving(call.slot))) else s
      case Abandon =>
        if call.phase.Waiting? then s.(calls := SetPhase(s.calls, c, Leaving(None))) else s
      case Leave =>
        if call.phase.Leaving?
        then s.(calls := SetPhase(s.calls, c, Done(call.phase.result)), commands := s.commands - {call.agent})
        else s
  }

  function ApplyStream(s: State, id: RequestId, step: StreamStep): State {
    match step
    case Register(a) =>
      if id in s.issued || id == "" then s
      else s.(issued := s.issued + {id}, owner := s.owner[id := a], callbacks := s.callbacks[id := []])
    case Unregister => s.(callbacks := s.callbacks - {id})
    case SendStart =>
      if id in s.owner && s.owner[id] in s.links then
        var l := s.links[s.owner[id]];
        s.(links := s.links[s.owner[id] := Starting(l, id)])
      else s
    case SendStop =>
      if id in s.owner && s.owner[id] in s.links
      then s.(links := s.links[s.owner[id] := Enqueue(s.links[s.owner[id]], StreamStop(id))])
      else s
    case Consume =>
      if id in s.callbacks && s.callbacks[id] != []
      then s.(callbacks := s.callbacks[id := s.callbacks[id][1..]])
      else s
  }

  // routeResponse.  Up to the lookup: a registered callback takes the message (or drops it when its
  // 64 slots are full); otherwise it is for whatever command is pending, whose id is not compared.
  // Then the non-blocking send into the reply channel, which drops the message when the channel
  // already holds one.  Looking for a callback and for a command are two lock sections taken as one
  // step: request ids are fresh, so an id without a callback gets none later and the step can be placed
  // at the second section; a callback that is removed after it was found loses the message either way.
  function ApplyManager(s: State, a: AgentId, step: ManagerStep): State {
    if a !in s.links then s
    else
      var l := s.links[a];
      match step
      case Route =>
        if l.toManager == [] || l.inHand.Some? then s
        else
          var m := l.toManager[0];
          var popped := l.(toManager := l.toManager[1..]);
          if m.id in s.callbacks then
            var queue := s.callbacks[m.id];
            s.(links := s.links[a := popped], callbacks :=
               if |queue| < CALLBACK_CAPACITY then s.callbacks[m.id := queue + [m]] else s.callbacks)
          else if a in s.commands then
            s.(links := s.links[a := popped.(inHand := Some(Delivery(m, s.commands[a])))])
          else
            s.(links := s.links[a := popped])
      case Deliver =>
        if l.inHand.None? then s
        else
          var d := l.inHand.value;
          var t := s.(links := s.links[a := l.(inHand := None)]);
          if d.call in s.calls && s.calls[d.call].slot.None?
          then t.(calls := s.calls[d.call := s.calls[d.call].(slot := Some(d.msg))])
          else t
  }

  function LinkOf(s: State, a: AgentId): Link {
    if a in s.links then s.links[a] else NEW_LINK
  }

  function Apply(s: State, step: Step): State {
    match step
    case Caller(c, k) => ApplyCaller(s, c, k)
    case Streamer(id, k) => ApplyStream(s, id, k)
    case Agent(a, k) => s.(links := s.links[a := ApplyAgent(a, LinkOf(s, a), k)])
    case Manager(a, k) => ApplyManager(s, a, k)
  }

  function Run(s: State, steps: seq<Step>): State
    decreases |steps|
  {
    if steps == [] then s else Run(Apply(s, steps[0]), steps[1..])
  }

  // ---------------------------------------------------------------- the pending map

  // The pending map and the call table agree: exactly the calls that have not returned are pending.
  ghost predicate Pending(commands: map<AgentId, CallId>, calls: map<CallId, Call>) {
    && (forall a :: a in commands ==>
          commands[a] in calls && calls[commands[a]].agent == a && !calls[commands[a]].phase.Done?)
    && (forall c :: c in calls && !calls[c].phase.Done? ==>
          calls[c].agent in commands && commands[calls[c].agent] == c)
  }

  lemma PendingUpdate(commands: map<AgentId, CallId>, calls: map<CallId, Call>, c: CallId, call: Call)
    requires Pending(commands, calls)
    requires call.phase.Done? ==> c !in calls || calls[c].phase.Done?
    requires !call.phase.Done? ==> c in calls && !calls[c].phase.Done? && call.agent == calls[c].agent
    ensures Pending(commands, calls[c := call])
  {
  }

  lemma PendingBegin(commands: map<AgentId, CallId>, calls: map<CallId, Call>, c: CallId, call: Call)
    requires Pending(commands, calls)
    requires c !in calls && !call.phase.Done? && call.agent !in commands
    ensures Pending(commands[call.agent := c], calls[c := call])
  {
  }

  lemma PendingLeave(commands: map<AgentId, CallId>, calls: map<CallId, Call>, c: CallId, r: Option<Message>)
    requires Pending(commands, calls)
    requires c in calls && !calls[c].phase.Done?
    ensures Pending(commands - {calls[c].agent}, SetPhase(calls, c, Done(r)))
  {
  }

  lemma PendingStep(s: State, step: Step)
    requires Pending(s.commands, s.calls)
    ensures var t := Apply(s, step); Pending(t.commands, t.calls)
  {
    match step
    case Caller(c, k) => PendingCaller(s, c, k);
    case Streamer(_, _) =>
    case Agent(_, _) =>
    case Manager(a, k) => PendingManager(s, a, k);
  }

  lemma PendingCaller(s: State, c: CallId, k: CallerStep)
    requires Pending(s.commands, s.calls)
    ensures var t := ApplyCaller(s, c, k); Pending(t.commands, t.calls)
  {
    if k.Begin? && c !in s.calls {
      if k.agent in s.commands {
        PendingUpdate(s.commands, s.calls, c, Call(k.agent, k.id, Done(None), None));
      } else {
        PendingBegin(s.commands, s.calls, c, Call(k.agent, k.id, Registered, None));
      }
    } else if c in s.calls && !s.calls[c].phase.Done? {
      if s.calls[c].phase.Leaving? {
        PendingLeave(s.commands, s.calls, c, s.calls[c].phase.result);
      }
      PendingUpdate(s.commands, s.calls, c, s.calls[c].(phase := Waiting));
      PendingUpdate(s.commands, s.calls, c, s.calls[c].(phase := Leaving(None)));
      PendingUpdate(s.commands, s.calls, c, s.calls[c].(phase := Leaving(s.calls[c].slot)));
    }
  }

  lemma PendingManager(s: State, a: AgentId, k: ManagerStep)
    requires Pending(s.commands, s.calls)
    ensures var t := ApplyManager(s, a, k); Pending(t.commands, t.calls)
  {
    if a in s.links && s.links[a].inHand.Some? {
      var d := s.links[a].inHand.value;
      if d.call in s.calls {
        PendingUpdate(s.commands, s.calls, d.call, s.calls[d.call].(slot := Some(d.msg)));
      }
    }
  }

  // ---------------------------------------------------------------- request ids

  // Request ids belong to one call or one stream, never to two.
  ghost predicate CallIds(calls: map<CallId, Call>, owner: map<RequestId, AgentId>, issued: set<RequestId>) {
    && (forall c :: c in calls ==> calls[c].id in issued && calls[c].id !in owner)
    && (forall c, d :: c in calls && d in calls && calls[c].id == calls[d].id ==> c == d)
  }

  ghost predicate StreamIds(owner: map<RequestId, AgentId>, issued: set<RequestId>) {
    forall id :: id in owner ==> id in issued
  }

  ghost predicate Ids(s: State) {
    && CallIds(s.calls, s.owner, s.issued)
    && StreamIds(s.owner, s.issued)
  }

  lemma CallIdsUpdate(calls: map<CallId, Call>, owner: map<RequestId, AgentId>, issued: set<RequestId>,
                      c: CallId, call: Call)
    requires CallIds(calls, owner, issued)
    requires c in calls && calls[c].id == call.id
    ensures CallIds(calls[c := call], owner, issued)
  {
  }

  lemma CallIdsBegin(calls: map<CallId, Call>, owner: map<RequestId, AgentId>, issued: set<RequestId>,
                     c: CallId, call: Call)
    requires CallIds(calls, owner, issued) && StreamIds(owner, issued)
    requires call.id !in issued
    ensures CallIds(calls[c := call], owner, issued + {call.id})
  {
  }

  lemma IdsStep(s: State, step: Step)
    requires Ids(s)
    ensures Ids(Apply(s, step))
  {
    match step
    case Caller(c, k) => IdsCaller(s, c, k);
    case Streamer(id, k) => IdsStream(s, id, k);
    case Agent(_, _) =>
    case Manager(a, k) => IdsManager(s, a, k);
  }

  lemma IdsCaller(s: State, c: CallId, k: CallerStep)
    requires Ids(s)
    ensures Ids(ApplyCaller(s, c, k))
  {
    if k.Begin? {
      if k.id !in s.issued {
        CallIdsBegin(s.calls, s.owner, s.issued, c, Call(k.agent, k.id, Done(None), None));
        CallIdsBegin(s.calls, s.owner, s.issued, c, Call(k.agent, k.id, Registered, None));
      }
    } else if c in s.calls {
      var call := s.calls[c];
      CallIdsUpdate(s.calls, s.owner, s.issued, c, call.(phase := Waiting));
      CallIdsUpdate(s.calls, s.owner, s.issued, c, call.(phase := Leaving(None)));
      CallIdsUpdate(s.calls, s.owner, s.issued, c, call.(phase := Leaving(call.slot)));
      if call.phase.Leaving? {
        CallIdsUpdate(s.calls, s.owner, s.issued, c, call.(phase := Done(call.phase.result)));
      }
    }
  }

  lemma IdsStream(s: State, id: RequestId, k: StreamStep)
    requires Ids(s)
    ensures Ids(ApplyStream(s, id, k))
  {
  }

  lemma IdsManager(s: State, a: AgentId, k: ManagerStep)
    requires Ids(s)
    ensures Ids(ApplyManager(s, a, k))
  {
    if a in s.links && s.links[a].inHand.Some? {
      var d := s.links[a].inHand.value;
      if d.call in s.calls {
        CallIdsUpdate(s.calls, s.owner, s.issued, d.call, s.calls[d.call].(slot := Some(d.msg)));
      }
    }
  }

  // ---------------------------------------------------------------- where messages come from

  predicate Known(l: Link, id: RequestId) {
    id in l.asked || id in l.started
  }

  predicate EnvelopeOk(asked: map<RequestId, CallId>, started: set<RequestId>, e: Envelope) {
    (e.Command? ==> e.id in asked) && (e.StreamStart? ==> e.id in started)
  }

  predicate MessageOk(a: AgentId, asked: map<RequestId, CallId>, started: set<RequestId>, m: Message) {
    m.agent == a && (m.id in asked || m.id in started)
  }

  ghost predicate EnvelopesOk(asked: map<RequestId, CallId>, started: set<RequestId>, q: seq<Envelope>) {
    forall i :: 0 <= i < |q| ==> EnvelopeOk(asked, started, q[i])
  }

  ghost predicate MessagesOk(a: AgentId, asked: map<RequestId, CallId>, started: set<RequestId>, q: seq<Message>) {
    forall i :: 0 <= i < |q| ==> MessageOk(a, asked, started, q[i])
  }

  // Everything a connection carries stems from something sent over it: commands answer asked ids,
  // stream goroutines and starts use started ids, and every message bears its own agent's name.
  ghost predicate LinkOk(a: AgentId, l: Link) {
    && EnvelopesOk(l.asked, l.started, l.toAgent)
    && EnvelopesOk(l.asked, l.started, l.working)
    && (forall id :: id in l.streams ==> id in l.started)
    && MessagesOk(a, l.asked, l.started, l.toManager)
    && (l.inHand.Some? ==> MessageOk(a, l.asked, l.started, l.inHand.value.msg))
  }

  lemma LinkOkHandle(a: AgentId, l: Link, i: nat, answer: Option<Body>)
    requires LinkOk(a, l) && i < |l.working|
    ensures LinkOk(a, Handle(a, l, i, answer))
  {
    assert EnvelopeOk(l.asked, l.started, l.working[i]);
    assert EnvelopesOk(l.asked, l.started, l.working[..i] + l.working[i + 1..]);
  }

  lemma LinkOkAgent(a: AgentId, l: Link, k: AgentStep)
    requires LinkOk(a, l)
    ensures LinkOk(a, ApplyAgent(a, l, k))
  {
    if k.Act? && k.index < |l.working| {
      LinkOkHandle(a, l, k.index, k.answer);
    }
  }

  ghost predicate LinksOk(links: map<AgentId, Link>) {
    forall a :: a in links ==> LinkOk(a, links[a])
  }

  // The history of a connection names real calls to its agent that were sent, and its own streams.
  ghost predicate History(links: map<AgentId, Link>, calls: map<CallId, Call>, owner: map<RequestId, AgentId>) {
    && (forall a, id :: a in links && id in links[a].asked ==>
          var c := links[a].asked[id];
          c in calls && calls[c].id == id && calls[c].agent == a && !calls[c].phase.Registered?)
    && (forall a, id :: a in links && id in links[a].started ==> id in owner && owner[id] == a)
  }

  // The reply channel of a call, and what the call returned, hold only messages its own agent
  // produced for something that agent had been sent.
  ghost predicate Replies(links: map<AgentId, Link>, calls: map<CallId, Call>) {
    && (forall a :: a in links && links[a].inHand.Some? ==>
          links[a].inHand.value.call in calls && calls[links[a].inHand.value.call].agent == a)
    && (forall c :: c in calls ==>
          calls[c].agent in links
          && (calls[c].slot.Some? ==> calls[c].slot.value.agent == calls[c].agent
                                      && Known(links[calls[c].agent], calls[c].slot.value.id))
          && (Result(calls[c]).Some? ==> calls[c].slot == Result(calls[c])))
  }

  function Result(call: Call): Option<Message> {
    if call.phase.Leaving? || call.phase.Done? then call.phase.result else None
  }

  // A callback queue holds at most 64 messages, all of its own stream on its own agent.
  ghost predicate Callbacks(callbacks: map<RequestId, seq<Message>>, owner: map<RequestId, AgentId>) {
    forall id :: id in callbacks ==>
      id in owner && |callbacks[id]| <= CALLBACK_CAPACITY
      && forall i :: 0 <= i < |callbacks[id]| ==> callbacks[id][i].agent == owner[id] && callbacks[id][i].id == id
  }

  ghost predicate Provenance(s: State) {
    && LinksOk(s.links)
    && History(s.links, s.calls, s.owner)
    && Replies(s.links, s.calls)
    && Callbacks(s.callbacks, s.owner)
  }

  lemma HistoryLink(links: map<AgentId, Link>, calls: map<CallId, Call>, owner: map<RequestId, AgentId>,
                    a: AgentId, l: Link)
    requires History(links, calls, owner)
    requires forall id :: id in l.asked ==>
               var c := l.asked[id];
               c in calls && calls[c].id == id && calls[c].agent == a && !calls[c].phase.Registered?
    requires forall id :: id in l.started ==> id in owner && owner[id] == a
    ensures History(links[a := l], calls, owner)
  {
  }

  lemma RepliesLink(links: map<AgentId, Link>, calls: map<CallId, Call>, a: AgentId, l: Link)
    requires Replies(links, calls)
    requires a in links ==> links[a].asked.Keys <= l.asked.Keys && links[a].started <= l.started
    requires l.inHand.Some? ==> l.inHand.value.call in calls && calls[l.inHand.value.call].agent == a
    ensures Replies(links[a := l], calls)
  {
  }

  // A connection changed without forgetting what was sent over it.
  lemma ProvenanceLink(s: State, a: AgentId, l: Link)
    requires Provenance(s) && LinkOk(a, l)
    requires if a in s.links then l.asked == s.links[a].asked && l.started == s.links[a].started
             else l.asked == map[] && l.started == {}
    requires l.inHand.Some? ==> l.inHand.value.call in s.calls && s.calls[l.inHand.value.call].agent == a
    ensures Provenance(s.(links := s.links[a := l]))
  {
    HistoryLink(s.links, s.calls, s.owner, a, l);
    RepliesLink(s.links, s.calls, a, l);
  }

  lemma ProvenanceCall(s: State, c: CallId, call: Call)
    requires Provenance(s)
    requires call.agent in s.links
    requires c in s.calls ==> call.agent == s.calls[c].agent && call.id == s.calls[c].id
                              && (call.phase.Registered? ==> s.calls[c].phase.Registered?)
    requires call.slot.Some? ==> call.slot.value.agent == call.agent && Known(s.links[call.agent], call.slot.value.id)
    requires Result(call).Some? ==> call.slot == Result(call)
    ensures Provenance(s.(calls := s.calls[c := call]))
  {
  }

  lemma ProvenanceStep(s: State, step: Step)
    requires Provenance(s) && Ids(s) && Pending(s.commands, s.calls)
    ensures Provenance(Apply(s, step))
  {
    match step
    case Caller(c, k) => ProvenanceCaller(s, c, k);
    case Streamer(id, k) => ProvenanceStream(s, id, k);
    case Agent(a, k) => ProvenanceAgent(s, a, k);
    case Manager(a, k) => ProvenanceManager(s, a, k);
  }

  lemma ProvenanceAgent(s: State, a: AgentId, k: AgentStep)
    requires Provenance(s)
    ensures Provenance(s.(links := s.links[a := ApplyAgent(a, LinkOf(s, a), k)]))
  {
    var l := LinkOf(s, a);
    LinkOkAgent(a, l, k);
    AgentKeepsHistory(a, l, k);
    ProvenanceLink(s, a, ApplyAgent(a, l, k));
  }

  lemma AgentKeepsHistory(a: AgentId, l: Link, k: AgentStep)
    ensures var r := ApplyAgent(a, l, k); r.asked == l.asked && r.started == l.started && r.inHand == l.inHand
  {
    if k.Act? && k.index < |l.working| {
      HandleKeepsHistory(a, l, k.index, k.answer);
    }
  }

  lemma HandleKeepsHistory(a: AgentId, l: Link, i: nat, answer: Option<Body>)
    requires i < |l.working|
    ensures var r := Handle(a, l, i, answer); r.asked == l.asked && r.started == l.started && r.inHand == l.inHand
  {
    match l.working[i]
    case Command(_) =>
    case StreamStart(_) =>
    case StreamStop(_) =>
  }

  lemma ProvenanceCaller(s: State, c: CallId, k: CallerStep)
    requires Provenance(s)
    ensures Provenance(ApplyCaller(s, c, k))
  {
    if k.Begin? {
      if c !in s.calls && k.agent in s.links {
        ProvenanceCall(s, c, Call(k.agent, k.id, Done(None), None));
        ProvenanceCall(s, c, Call(k.agent, k.id, Registered, None));
      }
    } else if c in s.calls {
      var call := s.calls[c];
      if k.Send? && call.phase.Registered? && k.ok {
        ProvenanceSend(s, c);
      } else if call.phase.Leaving? {
        ProvenanceCall(s, c, call.(phase := Done(call.phase.result)));
      } else {
        ProvenanceCall(s, c, call.(phase := Leaving(None)));
        ProvenanceCall(s, c, call.(phase := Leaving(call.slot)));
      }
    }
  }

  lemma LinkOkGrow(a: AgentId, l: Link, id: RequestId, c: CallId)
    requires LinkOk(a, l)
    ensures LinkOk(a, Asking(l, id, c)) && LinkOk(a, Starting(l, id)) && LinkOk(a, Enqueue(l, StreamStop(id)))
  {
  }

  lemma ProvenanceSend(s: State, c: CallId)
    requires Provenance(s) && c in s.calls && s.calls[c].phase.Registered?
    ensures Provenance(ApplyCaller(s, c, Send(true)))
  {
    var call := s.calls[c];
    ProvenanceCall(s, c, call.(phase := Waiting));
    ProvenanceAsk(s.(calls := SetPhase(s.calls, c, Waiting)), c);
  }

  lemma ProvenanceAsk(s: State, c: CallId)
    requires Provenance(s) && c in s.calls && s.calls[c].phase.Waiting?
    ensures var a := s.calls[c].agent;
            Provenance(s.(links := s.links[a := Asking(s.links[a], s.calls[c].id, c)]))
  {
    var a, id := s.calls[c].agent, s.calls[c].id;
    var l' := Asking(s.links[a], id, c);
    LinkOkGrow(a, s.links[a], id, c);
    HistoryLink(s.links, s.calls, s.owner, a, l');
    RepliesLink(s.links, s.calls, a, l');
  }

  lemma ProvenanceStream(s: State, id: RequestId, k: StreamStep)
    requires Provenance(s) && Ids(s)
    ensures Provenance(ApplyStream(s, id, k))
  {
    match k
    case Register(a) =>
      if id !in s.issued {
        CallbackRegister(s.callbacks, s.owner, id, a);
      }
    case Unregister =>
    case SendStart =>
      if id in s.owner && s.owner[id] in s.links {
        ProvenanceStart(s, id);
      }
    case SendStop =>
      if id in s.owner && s.owner[id] in s.links {
        LinkOkGrow(s.owner[id], s.links[s.owner[id]], id, 0);
        ProvenanceLink(s, s.owner[id], Enqueue(s.links[s.owner[id]], StreamStop(id)));
      }
    case Consume =>
  }

  lemma ProvenanceStart(s: State, id: RequestId)
    requires Provenance(s) && id in s.owner && s.owner[id] in s.links
    ensures Provenance(ApplyStream(s, id, SendStart))
  {
    var a := s.owner[id];
    var l' := Starting(s.links[a], id);
    LinkOkGrow(a, s.links[a], id, 0);
    HistoryLink(s.links, s.calls, s.owner, a, l');
    RepliesLink(s.links, s.calls, a, l');
  }

  lemma CallbackRegister(callbacks: map<RequestId, seq<Message>>, owner: map<RequestId, AgentId>, id: RequestId, a: AgentId)
    requires Callbacks(callbacks, owner) && id !in owner
    ensures Callbacks(callbacks[id := []], owner[id := a])
  {
  }

  lemma ProvenanceManager(s: State, a: AgentId, k: ManagerStep)
    requires Provenance(s) && Ids(s) && Pending(s.commands, s.calls)
    ensures Provenance(ApplyManager(s, a, k))
  {
    if a in s.links {
      if k.Route? && s.links[a].toManager != [] && s.links[a].inHand.None? {
        ProvenanceRoute(s, a);
      } else if k.Deliver? && s.links[a].inHand.Some? {
        ProvenanceDeliver(s, a);
      }
    }
  }

  lemma ProvenanceDeliver(s: State, a: AgentId)
    requires Provenance(s) && a in s.links && s.links[a].inHand.Some?
    ensures Provenance(ApplyManager(s, a, Deliver))
  {
    var l := s.links[a].(inHand := None);
    var d := s.links[a].inHand.value;
    ProvenanceLink(s, a, l);
    if s.calls[d.call].slot.None? {
      ProvenanceCall(s.(links := s.links[a := l]), d.call, s.calls[d.call].(slot := Some(d.msg)));
    }
  }

  lemma ProvenanceRoute(s: State, a: AgentId)
    requires Provenance(s) && Ids(s) && Pending(s.commands, s.calls)
    requires a in s.links && s.links[a].toManager != [] && s.links[a].inHand.None?
    ensures Provenance(ApplyManager(s, a, Route))
  {
    var l := s.links[a];
    var m := l.toManager[0];
    var popped := l.(toManager := l.toManager[1..]);
    assert LinkOk(a, popped);
    if m.id in s.callbacks {
      ProvenanceLink(s, a, popped);
      CallbackMessage(s, a, m);
      if |s.callbacks[m.id]| < CALLBACK_CAPACITY {
        CallbackAppend(s.callbacks, s.owner, m);
      }
    } else if a in s.commands {
      assert MessageOk(a, l.asked, l.started, m);
      ProvenanceLink(s, a, popped.(inHand := Some(Delivery(m, s.commands[a]))));
    } else {
      ProvenanceLink(s, a, popped);
    }
  }

  // A message whose id has a callback belongs to that stream: command ids never have callbacks.
  lemma CallbackMessage(s: State, a: AgentId, m: Message)
    requires Provenance(s) && Ids(s)
    requires a in s.links && m in s.links[a].toManager && m.id in s.callbacks
    ensures m.agent == s.owner[m.id]
  {
    var l := s.links[a];
    assert MessageOk(a, l.asked, l.started, m);
    assert m.id !in l.asked;
  }

  lemma CallbackAppend(callbacks: map<RequestId, seq<Message>>, owner: map<RequestId, AgentId>, m: Message)
    requires Callbacks(callbacks, owner) && m.id in callbacks && |callbacks[m.id]| < CALLBACK_CAPACITY && m.agent == owner[m.id]
    ensures Callbacks(callbacks[m.id := callbacks[m.id] + [m]], owner)
  {
  }
}
