/** Conservation of replies in flight: no command id ever has two, and none outlives its own reply. */
module ProtocolTokens {
  import opened Common
  import opened Protocol

  function EnvelopeIds(q: seq<Envelope>): multiset<RequestId> {
    if q == [] then multiset{}
    else (if q[0].StreamStop? then multiset{} else multiset{q[0].id}) + EnvelopeIds(q[1..])
  }

  function MessageIds(q: seq<Message>): multiset<RequestId> {
    if q == [] then multiset{} else multiset{q[0].id} + MessageIds(q[1..])
  }

  // Every token that can still become a message to the manager: commands and stream starts not yet
  // answered, live stream goroutines, queued messages and the message in the receive loop's hand.
  function Pipe(l: Link): multiset<RequestId> {
    EnvelopeIds(l.toAgent) + EnvelopeIds(l.working) + l.streams + MessageIds(l.toManager)
    + (if l.inHand.Some? then multiset{l.inHand.value.msg.id} else multiset{})
  }

  lemma {:induction false} EnvelopeIdsConcat(p: seq<Envelope>, q: seq<Envelope>)
    ensures EnvelopeIds(p + q) == EnvelopeIds(p) + EnvelopeIds(q)
  {
    if p == [] {
      assert p + q == q;
    } else {
      assert (p + q)[1..] == p[1..] + q;
      EnvelopeIdsConcat(p[1..], q);
    }
  }

  lemma {:induction false} MessageIdsConcat(p: seq<Message>, q: seq<Message>)
    ensures MessageIds(p + q) == MessageIds(p) + MessageIds(q)
  {
    if p == [] {
      assert p + q == q;
    } else {
      assert (p + q)[1..] == p[1..] + q;
      MessageIdsConcat(p[1..], q);
    }
  }

  lemma EnvelopeIdsRemove(w: seq<Envelope>, i: nat)
    requires i < |w|
    ensures EnvelopeIds(w) == EnvelopeIds(w[..i] + w[i + 1..]) + EnvelopeIds([w[i]])
  {
    assert w == w[..i] + ([w[i]] + w[i + 1..]);
    EnvelopeIdsConcat(w[..i], [w[i]] + w[i + 1..]);
    EnvelopeIdsConcat([w[i]], w[i + 1..]);
    EnvelopeIdsConcat(w[..i], w[i + 1..]);
    Commute(EnvelopeIds(w[..i]), EnvelopeIds([w[i]]), EnvelopeIds(w[i + 1..]));
  }

  lemma Commute(p: multiset<RequestId>, x: multiset<RequestId>, q: multiset<RequestId>)
    ensures p + (x + q) == (p + q) + x
  {
  }

  lemma PipeEmit(l: Link, m: Message)
    ensures Pipe(Emit(l, m)) == Pipe(l) + multiset{m.id}
  {
    MessageIdsConcat(l.toManager, [m]);
  }

  lemma PipeTake(a: AgentId, l: Link)
    ensures Pipe(ApplyAgent(a, l, Take)) == Pipe(l)
  {
    if l.toAgent != [] {
      assert l.toAgent == [l.toAgent[0]] + l.toAgent[1..];
      EnvelopeIdsConcat([l.toAgent[0]], l.toAgent[1..]);
      EnvelopeIdsConcat(l.working, [l.toAgent[0]]);
    }
  }

  lemma PipeHandle(a: AgentId, l: Link, i: nat, answer: Option<Body>)
    requires i < |l.working|
    ensures Pipe(Handle(a, l, i, answer)) <= Pipe(l)
  {
    EnvelopeIdsRemove(l.working, i);
    var done := l.(working := l.working[..i] + l.working[i + 1..]);
    assert Pipe(l) == Pipe(done) + EnvelopeIds([l.working[i]]);
    PipeEmit(done, Message(a, l.working[i].id, if answer.Some? then answer.value else 0));
  }

  lemma PipeDropQueues(a: AgentId, l: Link)
    ensures Pipe(ApplyAgent(a, l, Connect)) <= Pipe(l)
  {
  }

  lemma PipeEnd(a: AgentId, l: Link, x: RequestId)
    ensures Pipe(ApplyAgent(a, l, End(x))) <= Pipe(l)
  {
    assert l.streams - multiset{x} <= l.streams;
    SumGrows(EnvelopeIds(l.toAgent) + EnvelopeIds(l.working), l.streams - multiset{x}, l.streams,
             MessageIds(l.toManager) + if l.inHand.Some? then multiset{l.inHand.value.msg.id} else multiset{});
  }

  lemma SumGrows(p: multiset<RequestId>, less: multiset<RequestId>, more: multiset<RequestId>, q: multiset<RequestId>)
    requires less <= more
    ensures p + less + q <= p + more + q
  {
  }

  // An agent multiplies no token except those of its running streams.
  lemma PipeAgent(a: AgentId, l: Link, k: AgentStep, id: RequestId)
    requires id !in l.streams
    ensures Pipe(ApplyAgent(a, l, k))[id] <= Pipe(l)[id]
  {
    if k.Connect? {
      PipeDropQueues(a, l);
    } else if k.Take? {
      PipeTake(a, l);
    } else if k.End? {
      PipeEnd(a, l, k.id);
    } else if k.Act? {
      PipeAct(a, l, k.index, k.answer);
    } else {
      PipeChunk(a, l, k.id, k.body, id);
    }
  }

  lemma PipeAct(a: AgentId, l: Link, i: nat, answer: Option<Body>)
    ensures Pipe(ApplyAgent(a, l, Act(i, answer))) <= Pipe(l)
  {
    if i < |l.working| {
      PipeHandle(a, l, i, answer);
    }
  }

  lemma PipeChunk(a: AgentId, l: Link, x: RequestId, body: Body, id: RequestId)
    requires id !in l.streams
    ensures Pipe(ApplyAgent(a, l, EmitChunk(x, body)))[id] == Pipe(l)[id]
  {
    PipeEmit(l, Message(a, x, body));
  }

  lemma {:induction false} EnvelopeIdsKnown(l: Link, q: seq<Envelope>, id: RequestId)
    requires EnvelopesOk(l.asked, l.started, q) && id in EnvelopeIds(q)
    ensures Known(l, id)
  {
    assert EnvelopeOk(l.asked, l.started, q[0]);
    if q[0].StreamStop? || q[0].id != id {
      EnvelopeIdsKnown(l, q[1..], id);
    }
  }

  lemma {:induction false} MessageIdsKnown(a: AgentId, l: Link, q: seq<Message>, id: RequestId)
    requires MessagesOk(a, l.asked, l.started, q) && id in MessageIds(q)
    ensures Known(l, id)
  {
    assert MessageOk(a, l.asked, l.started, q[0]);
    if q[0].id != id {
      MessageIdsKnown(a, l, q[1..], id);
    }
  }

  lemma PipeKnown(a: AgentId, l: Link, id: RequestId)
    requires LinkOk(a, l) && id in Pipe(l)
    ensures Known(l, id)
  {
    if id in EnvelopeIds(l.toAgent) {
      EnvelopeIdsKnown(l, l.toAgent, id);
    } else if id in EnvelopeIds(l.working) {
      EnvelopeIdsKnown(l, l.working, id);
    } else if id in MessageIds(l.toManager) {
      MessageIdsKnown(a, l, l.toManager, id);
    }
  }

  // ---------------------------------------------------------------- conservation

  type Pipes = map<AgentId, multiset<RequestId>>

  function PipesOf(links: map<AgentId, Link>): Pipes {
    map a | a in links :: Pipe(links[a])
  }

  predicate Settled(call: Call) {
    call.phase.Registered? || (call.slot.Some? && call.slot.value.id == call.id)
  }

  // A command id has at most one token in flight, on its own agent only, and none before it is sent
  // or once its reply has reached its own call.
  ghost predicate Tokens(calls: map<CallId, Call>, pipes: Pipes) {
    && (forall c, a :: c in calls && a in pipes ==>
          pipes[a][calls[c].id] <= if a == calls[c].agent then 1 else 0)
    && (forall c :: c in calls && calls[c].agent in pipes && Settled(calls[c]) ==>
          pipes[calls[c].agent][calls[c].id] == 0)
  }

  lemma TokensShrink(calls: map<CallId, Call>, pipes: Pipes, a: AgentId, p: multiset<RequestId>)
    requires Tokens(calls, pipes)
    requires forall c :: c in calls ==> p[calls[c].id] <= if a in pipes then pipes[a][calls[c].id] else 0
    ensures Tokens(calls, pipes[a := p])
  {
  }

  lemma TokensCall(calls: map<CallId, Call>, pipes: Pipes, c: CallId, call: Call)
    requires Tokens(calls, pipes)
    requires c in calls && call.id == calls[c].id && call.agent == calls[c].agent
    requires Settled(call) && call.agent in pipes ==> pipes[call.agent][call.id] == 0
    ensures Tokens(calls[c := call], pipes)
  {
  }

  lemma TokensBegin(calls: map<CallId, Call>, pipes: Pipes, c: CallId, call: Call)
    requires Tokens(calls, pipes)
    requires forall a :: a in pipes ==> call.id !in pipes[a]
    ensures Tokens(calls[c := call], pipes)
  {
  }

  ghost predicate Inv(s: State) {
    && Pending(s.commands, s.calls)
    && Ids(s)
    && Provenance(s)
    && Tokens(s.calls, PipesOf(s.links))
  }

  lemma PipesUpdate(links: map<AgentId, Link>, a: AgentId, l: Link)
    ensures PipesOf(links[a := l]) == PipesOf(links)[a := Pipe(l)]
  {
  }

  // Nothing in flight bears an id that was not issued, or a stream id on another agent.
  lemma PipeOrigin(s: State, a: AgentId, id: RequestId)
    requires LinksOk(s.links) && History(s.links, s.calls, s.owner) && Ids(s)
    requires a in s.links && id in Pipe(s.links[a])
    ensures id in s.issued
    ensures id in s.owner ==> s.owner[id] == a
  {
    PipeKnown(a, s.links[a], id);
  }

  lemma StreamsAreNotCalls(s: State, a: AgentId, c: CallId)
    requires LinksOk(s.links) && History(s.links, s.calls, s.owner) && CallIds(s.calls, s.owner, s.issued)
    requires c in s.calls
    ensures s.calls[c].id !in LinkOf(s, a).streams && s.calls[c].id !in LinkOf(s, a).started
  {
    assert a in s.links ==> LinkOk(a, s.links[a]);
  }

  lemma TokensAgent(s: State, a: AgentId, k: AgentStep)
    requires Inv(s)
    ensures Tokens(s.calls, PipesOf(s.links[a := ApplyAgent(a, LinkOf(s, a), k)]))
  {
    var l := LinkOf(s, a);
    var r := ApplyAgent(a, l, k);
    forall c | c in s.calls
      ensures Pipe(r)[s.calls[c].id] <= Pipe(l)[s.calls[c].id]
    {
      StreamsAreNotCalls(s, a, c);
      PipeAgent(a, l, k, s.calls[c].id);
    }
    TokensShrink(s.calls, PipesOf(s.links), a, Pipe(r));
    PipesUpdate(s.links, a, r);
  }

  lemma TokensCaller(s: State, c: CallId, k: CallerStep)
    requires Inv(s)
    ensures var t := ApplyCaller(s, c, k); Tokens(t.calls, PipesOf(t.links))
  {
    if k.Begin? {
      if k.id !in s.issued {
        FreshId(s, k.id);
      }
      TokensBegins(s, c, k);
    } else if k.Send? && k.ok {
      if c in s.calls && s.calls[c].phase.Registered? {
        NotYetAnswered(s, c);
        TokensSend(s, c);
      }
    } else {
      LinksKept(s, c, k);
      TokensPhases(s, c, k, PipesOf(s.links));
    }
  }

  lemma FreshId(s: State, id: RequestId)
    requires LinksOk(s.links) && History(s.links, s.calls, s.owner) && Ids(s)
    requires id !in s.issued
    ensures forall a :: a in PipesOf(s.links) ==> id !in PipesOf(s.links)[a]
  {
    forall a | a in s.links
      ensures id !in Pipe(s.links[a])
    {
      if id in Pipe(s.links[a]) {
        PipeOrigin(s, a, id);
        assert false;
      }
    }
  }

  lemma TokensBegins(s: State, c: CallId, k: CallerStep)
    requires Tokens(s.calls, PipesOf(s.links)) && k.Begin?
    requires k.id !in s.issued ==> forall a :: a in PipesOf(s.links) ==> k.id !in PipesOf(s.links)[a]
    ensures var t := ApplyCaller(s, c, k); Tokens(t.calls, PipesOf(t.links))
  {
    if k.id !in s.issued {
      TokensBegin(s.calls, PipesOf(s.links), c, Call(k.agent, k.id, Done(None), None));
      TokensBegin(s.calls, PipesOf(s.links), c, Call(k.agent, k.id, Registered, None));
    }
  }

  lemma TokensPhases(s: State, c: CallId, k: CallerStep, pipes: Pipes)
    requires Tokens(s.calls, pipes)
    requires !k.Begin? && k != Send(true)
    ensures Tokens(ApplyCaller(s, c, k).calls, pipes)
  {
    if c in s.calls {
      var call := s.calls[c];
      TokensCall(s.calls, pipes, c, call.(phase := Done(Result(call))));
      TokensCall(s.calls, pipes, c, call.(phase := Leaving(call.slot)));
      TokensCall(s.calls, pipes, c, call.(phase := Leaving(None)));
    }
  }

  lemma LinksKept(s: State, c: CallId, k: CallerStep)
    requires !k.Begin? && k != Send(true)
    ensures ApplyCaller(s, c, k).links == s.links
  {
  }

  // A call that has not been sent yet may hold a stray message, but not the reply to itself.
  lemma NotYetAnswered(s: State, c: CallId)
    requires History(s.links, s.calls, s.owner) && CallIds(s.calls, s.owner, s.issued) && Replies(s.links, s.calls)
    requires c in s.calls && s.calls[c].phase.Registered?
    ensures s.calls[c].slot.Some? ==> s.calls[c].slot.value.id != s.calls[c].id
  {
  }

  // Sending puts the one token of the command into the pipe.
  lemma TokensSend(s: State, c: CallId)
    requires Tokens(s.calls, PipesOf(s.links))
    requires c in s.calls && s.calls[c].phase.Registered? && s.calls[c].agent in s.links
    requires s.calls[c].slot.Some? ==> s.calls[c].slot.value.id != s.calls[c].id
    requires CallIds(s.calls, s.owner, s.issued)
    ensures var t := ApplyCaller(s, c, Send(true)); Tokens(t.calls, PipesOf(t.links))
  {
    var call := s.calls[c];
    var l := s.links[call.agent];
    PipeAsking(l, call.id, c);
    PipesUpdate(s.links, call.agent, Asking(l, call.id, c));
    TokensSent(s.calls, PipesOf(s.links), c);
  }

  lemma PipeAsking(l: Link, id: RequestId, c: CallId)
    ensures Pipe(Asking(l, id, c)) == Pipe(l) + multiset{id}
  {
    EnvelopeIdsConcat(l.toAgent, [Command(id)]);
  }

  lemma PipeStarting(l: Link, id: RequestId)
    ensures Pipe(Starting(l, id)) == Pipe(l) + multiset{id}
  {
    EnvelopeIdsConcat(l.toAgent, [StreamStart(id)]);
  }

  lemma PipeStopping(l: Link, id: RequestId)
    ensures Pipe(Enqueue(l, StreamStop(id))) == Pipe(l)
  {
    EnvelopeIdsConcat(l.toAgent, [StreamStop(id)]);
  }

  lemma TokensSent(calls: map<CallId, Call>, pipes: Pipes, c: CallId)
    requires Tokens(calls, pipes)
    requires c in calls && calls[c].phase.Registered? && calls[c].agent in pipes
    requires calls[c].slot.Some? ==> calls[c].slot.value.id != calls[c].id
    requires forall d :: d in calls && calls[d].id == calls[c].id ==> d == c
    ensures var a := calls[c].agent;
            Tokens(SetPhase(calls, c, Waiting), pipes[a := pipes[a] + multiset{calls[c].id}])
  {
  }

  lemma TokensStream(s: State, id: RequestId, k: StreamStep)
    requires Tokens(s.calls, PipesOf(s.links))
    requires id in s.owner ==> forall c :: c in s.calls ==> s.calls[c].id != id
    ensures var t := ApplyStream(s, id, k); Tokens(t.calls, PipesOf(t.links))
  {
    if id in s.owner && s.owner[id] in s.links {
      TokensStreamSend(s.calls, s.links, s.owner[id], id);
    }
  }

  lemma TokensStreamSend(calls: map<CallId, Call>, links: map<AgentId, Link>, a: AgentId, id: RequestId)
    requires Tokens(calls, PipesOf(links)) && a in links && forall c :: c in calls ==> calls[c].id != id
    ensures Tokens(calls, PipesOf(links[a := Starting(links[a], id)]))
    ensures Tokens(calls, PipesOf(links[a := Enqueue(links[a], StreamStop(id))]))
  {
    PipeStarting(links[a], id);
    TokensLink(calls, links, a, Starting(links[a], id));
    PipeStopping(links[a], id);
    TokensLink(calls, links, a, Enqueue(links[a], StreamStop(id)));
  }

  lemma TokensLink(calls: map<CallId, Call>, links: map<AgentId, Link>, a: AgentId, l: Link)
    requires Tokens(calls, PipesOf(links)) && a in links
    requires forall c :: c in calls ==> Pipe(l)[calls[c].id] <= Pipe(links[a])[calls[c].id]
    ensures Tokens(calls, PipesOf(links[a := l]))
  {
    PipesUpdate(links, a, l);
    TokensShrink(calls, PipesOf(links), a, Pipe(l));
  }

  function Popped(l: Link): Link
    requires l.toManager != []
  {
    l.(toManager := l.toManager[1..])
  }

  lemma PipePop(l: Link, c: CallId)
    requires l.toManager != [] && l.inHand.None?
    ensures Pipe(l) == Pipe(Popped(l)) + multiset{l.toManager[0].id}
    ensures Pipe(Popped(l).(inHand := Some(Delivery(l.toManager[0], c)))) == Pipe(l)
  {
  }

  lemma PipeRelease(l: Link)
    requires l.inHand.Some?
    ensures Pipe(l) == Pipe(l.(inHand := None)) + multiset{l.inHand.value.msg.id}
  {
  }

  lemma TokensRoute(s: State, a: AgentId)
    requires Tokens(s.calls, PipesOf(s.links))
    ensures var t := ApplyManager(s, a, Route); Tokens(t.calls, PipesOf(t.links))
  {
    if a in s.links && s.links[a].toManager != [] && s.links[a].inHand.None? {
      var l := s.links[a];
      if l.toManager[0].id !in s.callbacks && a in s.commands {
        PipePop(l, s.commands[a]);
        TokensLink(s.calls, s.links, a, Popped(l).(inHand := Some(Delivery(l.toManager[0], s.commands[a]))));
      } else {
        PipePop(l, 0);
        TokensLink(s.calls, s.links, a, Popped(l));
      }
    }
  }

  lemma TokensDeliver(s: State, a: AgentId)
    requires Tokens(s.calls, PipesOf(s.links)) && Replies(s.links, s.calls)
    ensures var t := ApplyManager(s, a, Deliver); Tokens(t.calls, PipesOf(t.links))
  {
    if a in s.links && s.links[a].inHand.Some? {
      var l, d := s.links[a].(inHand := None), s.links[a].inHand.value;
      PipeRelease(s.links[a]);
      PipesUpdate(s.links, a, l);
      TokensShrink(s.calls, PipesOf(s.links), a, Pipe(l));
      TokensArrive(s.calls, PipesOf(s.links), a, Pipe(l), d);
    }
  }

  // A reply that reaches its own call leaves nothing of it in the pipe.
  lemma TokensArrive(calls: map<CallId, Call>, pipes: Pipes, a: AgentId, p: multiset<RequestId>, d: Delivery)
    requires a in pipes && pipes[a] == p + multiset{d.msg.id}
    requires d.call in calls && calls[d.call].agent == a
    requires Tokens(calls, pipes)
    ensures Tokens(calls[d.call := calls[d.call].(slot := Some(d.msg))], pipes[a := p])
  {
    TokensShrink(calls, pipes, a, p);
    TokensCall(calls, pipes[a := p], d.call, calls[d.call].(slot := Some(d.msg)));
  }

  lemma TokensStep(s: State, step: Step)
    requires Inv(s)
    ensures var t := Apply(s, step); Tokens(t.calls, PipesOf(t.links))
  {
    match step
    case Caller(c, k) => TokensCaller(s, c, k);
    case Streamer(id, k) => TokensStream(s, id, k);
    case Agent(a, k) => TokensAgent(s, a, k);
    case Manager(a, k) =>
      if k.Route? {
        TokensRoute(s, a);
      } else {
        TokensDeliver(s, a);
      }
  }

  lemma InvStep(s: State, step: Step)
    requires Inv(s)
    ensures Inv(Apply(s, step))
  {
    PendingStep(s, step);
    IdsStep(s, step);
    ProvenanceStep(s, step);
    TokensStep(s, step);
  }
}
