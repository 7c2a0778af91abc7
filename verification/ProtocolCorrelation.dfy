/** Which reply a command gets.  Replies are routed by agent, not by request id, so a reply that
    nobody waits for any more can reach the next command.  This module proves what holds in every
    run, and the exact condition under which the reply a command returns is its own. */
module ProtocolCorrelation {
  import opened Common
  import opened Protocol
  import opened ProtocolTokens

  lemma InitInv()
    ensures Inv(Init())
  {
  }

  lemma {:induction false} RunInv(s: State, steps: seq<Step>)
    requires Inv(s)
    ensures Inv(Run(s, steps))
    decreases |steps|
  {
    if steps != [] {
      InvStep(s, steps[0]);
      RunInv(Apply(s, steps[0]), steps[1..]);
    }
  }

  // Every interleaving: an agent has at most one command that has not returned; whatever a command
  // returned was produced by the agent it addressed, for a command to that agent which had been sent
  // or for a stream of that agent; and a stream's callback only ever holds that stream's messages.
  lemma EveryRun(steps: seq<Step>)
    ensures
      var s := Run(Init(), steps);
      && (forall a, c, d :: OpenOn(s, a, c) && OpenOn(s, a, d) ==> c == d)
      && (forall c :: c in s.calls && Result(s.calls[c]).Some? ==>
            Result(s.calls[c]).value.agent == s.calls[c].agent
            && SentTo(s, s.calls[c].agent, Result(s.calls[c]).value.id))
      && (forall id :: id in s.callbacks ==>
            && id in s.owner
            && |s.callbacks[id]| <= CALLBACK_CAPACITY
            && forall i :: 0 <= i < |s.callbacks[id]| ==> s.callbacks[id][i].agent == s.owner[id] && s.callbacks[id][i].id == id)
  {
    InitInv();
    RunInv(Init(), steps);
    var s := Run(Init(), steps);
    forall c | c in s.calls && Result(s.calls[c]).Some?
      ensures SentTo(s, s.calls[c].agent, Result(s.calls[c]).value.id)
    {
      KnownSent(s, s.calls[c].agent, Result(s.calls[c]).value.id);
    }
  }

  predicate OpenOn(s: State, a: AgentId, c: CallId) {
    c in s.calls && s.calls[c].agent == a && !s.calls[c].phase.Done?
  }

  // The id was sent to agent a: a stream of a owns it, or a call to a that was sent bears it.
  predicate SentTo(s: State, a: AgentId, id: RequestId) {
    (id in s.owner && s.owner[id] == a)
    || exists c :: c in s.calls && s.calls[c].id == id && s.calls[c].agent == a && !s.calls[c].phase.Registered?
  }

  lemma KnownSent(s: State, a: AgentId, id: RequestId)
    requires History(s.links, s.calls, s.owner)
    requires a in s.links && Known(s.links[a], id)
    ensures SentTo(s, a, id)
  {
    if id in s.links[a].asked {
      var c := s.links[a].asked[id];
      assert s.calls[c].id == id;
    }
  }

  // ---------------------------------------------------------------- clean runs

  // A step that leaves no unclaimed token behind on agent a: no command of a returns without a reply
  // while its reply is outstanding, no callback is removed while messages of its stream can still
  // come from a, and no stream is started on a after its callback is gone.
  predicate CleanStep(s: State, a: AgentId, step: Step) {
    match step
    case Caller(c, Leave) =>
      c in s.calls && s.calls[c].agent == a && s.calls[c].phase == Leaving(None) && a in s.links ==>
        s.calls[c].id !in Pipe(s.links[a])
    case Streamer(id, Unregister) => a in s.links ==> id !in Pipe(s.links[a])
    case Streamer(id, SendStart) => id in s.owner && s.owner[id] == a ==> id in s.callbacks
    case _ => true
  }

  predicate CleanRun(s: State, a: AgentId, steps: seq<Step>)
    decreases |steps|
  {
    steps == [] || (CleanStep(s, a, steps[0]) && CleanRun(Apply(s, steps[0]), a, steps[1..]))
  }

  predicate Claims(a: AgentId, past: set<CallId>, commands: map<AgentId, CallId>, calls: map<CallId, Call>, id: RequestId) {
    a in commands && commands[a] in calls && commands[a] !in past && calls[commands[a]].id == id
  }

  // Every token on its way from agent a has a claimant: a callback, or the command pending on a.
  // Calls to a begun after those of `past` hold, or are about to be handed, only their own reply.
  ghost predicate CleanParts(pipe: multiset<RequestId>, held: Option<Delivery>, a: AgentId, past: set<CallId>,
                             commands: map<AgentId, CallId>, calls: map<CallId, Call>,
                             callbacks: map<RequestId, seq<Message>>)
  {
    && past <= calls.Keys
    && (a in commands ==> commands[a] !in past)
    && (forall id :: id in pipe ==> id in callbacks || Claims(a, past, commands, calls, id))
    && (forall c :: c in calls && c !in past && calls[c].agent == a && calls[c].slot.Some? ==>
          calls[c].slot.value.id == calls[c].id)
    && (held.Some? ==>
          held.value.call in calls && held.value.call !in past && calls[held.value.call].id == held.value.msg.id)
  }

  ghost predicate Clean(s: State, a: AgentId, past: set<CallId>) {
    CleanParts(Pipe(LinkOf(s, a)), LinkOf(s, a).inHand, a, past, s.commands, s.calls, s.callbacks)
  }

  lemma PipeSupport(a: AgentId, l: Link, k: AgentStep)
    ensures forall id :: id in Pipe(ApplyAgent(a, l, k)) ==> id in Pipe(l)
  {
    forall id | id in Pipe(ApplyAgent(a, l, k))
      ensures id in Pipe(l)
    {
      if id !in l.streams {
        PipeAgent(a, l, k, id);
      } else {
        StreamInPipe(l, id);
      }
    }
  }

  lemma StreamInPipe(l: Link, id: RequestId)
    requires id in l.streams
    ensures id in Pipe(l)
  {
  }

  lemma CleanAgent(s: State, a: AgentId, past: set<CallId>, b: AgentId, k: AgentStep)
    requires Clean(s, a, past)
    ensures Clean(s.(links := s.links[b := ApplyAgent(b, LinkOf(s, b), k)]), a, past)
  {
    PipeSupport(b, LinkOf(s, b), k);
    AgentKeepsHistory(b, LinkOf(s, b), k);
  }

  lemma CleanLink(s: State, a: AgentId, past: set<CallId>, b: AgentId, l: Link)
    requires Clean(s, a, past)
    requires b == a ==> l.inHand == LinkOf(s, a).inHand
    requires b == a ==> forall id :: id in Pipe(l) ==> id in Pipe(LinkOf(s, a)) || id in s.callbacks
    ensures Clean(s.(links := s.links[b := l]), a, past)
  {
  }

  // What happens elsewhere, or removes only callbacks nothing relies on, does not matter.
  lemma CleanElsewhere(s: State, t: State, a: AgentId, past: set<CallId>)
    requires Clean(s, a, past)
    requires LinkOf(t, a) == LinkOf(s, a) && t.commands == s.commands && t.calls == s.calls
    requires forall id :: id in s.callbacks && id !in t.callbacks ==> id !in Pipe(LinkOf(s, a))
    ensures Clean(t, a, past)
  {
  }

  lemma CleanStream(s: State, a: AgentId, past: set<CallId>, id: RequestId, k: StreamStep)
    requires Clean(s, a, past) && CleanStep(s, a, Streamer(id, k))
    ensures Clean(ApplyStream(s, id, k), a, past)
  {
    if k.SendStart? {
      CleanStart(s, a, past, id);
    } else if k.SendStop? {
      CleanStop(s, a, past, id);
    } else {
      CallbacksOnly(s, id, k);
      CleanElsewhere(s, ApplyStream(s, id, k), a, past);
    }
  }

  lemma CallbacksOnly(s: State, id: RequestId, k: StreamStep)
    requires k.Register? || k.Unregister? || k.Consume?
    ensures var t := ApplyStream(s, id, k);
            t.links == s.links && t.commands == s.commands && t.calls == s.calls
            && forall x :: x in s.callbacks && x !in t.callbacks ==> x == id && k.Unregister?
  {
  }

  lemma CleanStart(s: State, a: AgentId, past: set<CallId>, id: RequestId)
    requires Clean(s, a, past)
    requires id in s.owner && s.owner[id] == a ==> id in s.callbacks
    ensures Clean(ApplyStream(s, id, SendStart), a, past)
  {
    if id in s.owner && s.owner[id] in s.links {
      PipeStarting(s.links[s.owner[id]], id);
      CleanLink(s, a, past, s.owner[id], Starting(s.links[s.owner[id]], id));
    }
  }

  lemma CleanStop(s: State, a: AgentId, past: set<CallId>, id: RequestId)
    requires Clean(s, a, past)
    ensures Clean(ApplyStream(s, id, SendStop), a, past)
  {
    if id in s.owner && s.owner[id] in s.links {
      PipeStopping(s.links[s.owner[id]], id);
      CleanLink(s, a, past, s.owner[id], Enqueue(s.links[s.owner[id]], StreamStop(id)));
    }
  }

  // ------------------------------------------------------------ callers

  lemma CleanCaller(s: State, a: AgentId, past: set<CallId>, c: CallId, k: CallerStep)
    requires Inv(s) && Clean(s, a, past) && CleanStep(s, a, Caller(c, k))
    ensures Clean(ApplyCaller(s, c, k), a, past)
  {
    if k.Begin? {
      CleanBegin(s, a, past, c, k);
    } else if c in s.calls {
      if k.Send? && k.ok {
        if s.calls[c].phase.Registered? {
          CleanAsk(s, a, past, c);
        }
      } else if k.Leave? {
        if s.calls[c].phase.Leaving? {
          CleanLeave(s, a, past, c);
        }
      } else {
        CleanPhase(s, a, past, c, k);
      }
    }
  }

  type Queues = map<RequestId, seq<Message>>

  lemma PartsCall(pipe: multiset<RequestId>, held: Option<Delivery>, a: AgentId, past: set<CallId>,
                  commands: map<AgentId, CallId>, calls: map<CallId, Call>, callbacks: Queues, c: CallId, call: Call)
    requires CleanParts(pipe, held, a, past, commands, calls, callbacks)
    requires c in calls && call.id == calls[c].id && call.agent == calls[c].agent
    requires c !in past && call.agent == a && call.slot.Some? ==> call.slot.value.id == call.id
    ensures CleanParts(pipe, held, a, past, commands, calls[c := call], callbacks)
  {
  }

  lemma PartsBegin(pipe: multiset<RequestId>, held: Option<Delivery>, a: AgentId, past: set<CallId>,
                   commands: map<AgentId, CallId>, calls: map<CallId, Call>, callbacks: Queues, c: CallId, call: Call)
    requires CleanParts(pipe, held, a, past, commands, calls, callbacks)
    requires c !in calls && call.slot.None?
    ensures CleanParts(pipe, held, a, past, commands, calls[c := call], callbacks)
    ensures call.agent !in commands ==>
              CleanParts(pipe, held, a, past, commands[call.agent := c], calls[c := call], callbacks)
  {
  }

  lemma PartsAsk(pipe: multiset<RequestId>, held: Option<Delivery>, a: AgentId, past: set<CallId>,
                 commands: map<AgentId, CallId>, calls: map<CallId, Call>, callbacks: Queues, id: RequestId)
    requires CleanParts(pipe, held, a, past, commands, calls, callbacks)
    requires Claims(a, past, commands, calls, id)
    ensures CleanParts(pipe + multiset{id}, held, a, past, commands, calls, callbacks)
  {
  }

  // The pending entry may go once nothing in the pipe relies on it.
  lemma PartsLeave(pipe: multiset<RequestId>, held: Option<Delivery>, a: AgentId, past: set<CallId>,
                   commands: map<AgentId, CallId>, calls: map<CallId, Call>, callbacks: Queues, b: AgentId)
    requires CleanParts(pipe, held, a, past, commands, calls, callbacks)
    requires b == a ==> forall id :: id in pipe ==> !Claims(a, past, commands, calls, id)
    ensures CleanParts(pipe, held, a, past, commands - {b}, calls, callbacks)
  {
  }

  lemma CleanBegin(s: State, a: AgentId, past: set<CallId>, c: CallId, k: CallerStep)
    requires k.Begin? && Clean(s, a, past)
    ensures Clean(ApplyCaller(s, c, k), a, past)
  {
    if c !in s.calls {
      var l := LinkOf(s, a);
      PartsBegin(Pipe(l), l.inHand, a, past, s.commands, s.calls, s.callbacks, c, Call(k.agent, k.id, Done(None), None));
      PartsBegin(Pipe(l), l.inHand, a, past, s.commands, s.calls, s.callbacks, c, Call(k.agent, k.id, Registered, None));
    }
    assert LinkOf(ApplyCaller(s, c, k), a) == LinkOf(s, a);
  }

  lemma CleanPhase(s: State, a: AgentId, past: set<CallId>, c: CallId, k: CallerStep)
    requires !k.Begin? && !k.Leave? && k != Send(true) && Clean(s, a, past) && c in s.calls
    ensures Clean(ApplyCaller(s, c, k), a, past)
  {
    LinksKept(s, c, k);
    assert LinkOf(ApplyCaller(s, c, k), a) == LinkOf(s, a);
    var l, call := LinkOf(s, a), s.calls[c];
    PartsCall(Pipe(l), l.inHand, a, past, s.commands, s.calls, s.callbacks, c, call.(phase := Leaving(None)));
    PartsCall(Pipe(l), l.inHand, a, past, s.commands, s.calls, s.callbacks, c, call.(phase := Leaving(call.slot)));
  }

  lemma CleanAsk(s: State, a: AgentId, past: set<CallId>, c: CallId)
    requires Pending(s.commands, s.calls) && Clean(s, a, past)
    requires c in s.calls && s.calls[c].phase.Registered? && s.calls[c].agent in s.links
    ensures Clean(ApplyCaller(s, c, Send(true)), a, past)
  {
    var l, call := LinkOf(s, a), s.calls[c];
    var calls' := SetPhase(s.calls, c, Waiting);
    PartsCall(Pipe(l), l.inHand, a, past, s.commands, s.calls, s.callbacks, c, call.(phase := Waiting));
    var t := ApplyCaller(s, c, Send(true));
    if call.agent == a {
      PipeAsking(l, call.id, c);
      PartsAsk(Pipe(l), l.inHand, a, past, s.commands, calls', s.callbacks, call.id);
      assert LinkOf(t, a) == Asking(l, call.id, c);
    } else {
      assert LinkOf(t, a) == l;
    }
  }

  // A command that got its own reply leaves no token: the reply was its only one.
  lemma OwnReplyWasLast(s: State, a: AgentId, past: set<CallId>, c: CallId)
    requires Tokens(s.calls, PipesOf(s.links)) && Replies(s.links, s.calls) && Clean(s, a, past)
    requires c in s.calls && s.calls[c].agent == a && c !in past && Result(s.calls[c]).Some?
    ensures s.calls[c].id !in Pipe(LinkOf(s, a))
  {
    assert Settled(s.calls[c]);
    assert PipesOf(s.links)[a] == Pipe(s.links[a]);
  }

  lemma CleanLeave(s: State, a: AgentId, past: set<CallId>, c: CallId)
    requires Inv(s) && Clean(s, a, past) && CleanStep(s, a, Caller(c, Leave))
    requires c in s.calls && s.calls[c].phase.Leaving?
    ensures Clean(ApplyCaller(s, c, Leave), a, past)
  {
    if s.calls[c].agent == a {
      LeavingIsPending(s.commands, s.calls, c);
      if s.calls[c].phase.result.Some? {
        OwnReplyWasLast(s, a, past, c);
      }
    }
    CleanForget(s, a, past, c);
  }

  lemma LeavingIsPending(commands: map<AgentId, CallId>, calls: map<CallId, Call>, c: CallId)
    requires Pending(commands, calls) && c in calls && calls[c].phase.Leaving?
    ensures calls[c].agent in commands && commands[calls[c].agent] == c
  {
  }

  lemma CleanForget(s: State, a: AgentId, past: set<CallId>, c: CallId)
    requires Clean(s, a, past)
    requires c in s.calls && s.calls[c].phase.Leaving? && s.calls[c].agent in s.links
    requires s.calls[c].agent == a ==>
               a in s.commands && s.commands[a] == c && s.calls[c].id !in Pipe(LinkOf(s, a))
    ensures Clean(ApplyCaller(s, c, Leave), a, past)
  {
    var l, call := LinkOf(s, a), s.calls[c];
    PartsLeave(Pipe(l), l.inHand, a, past, s.commands, s.calls, s.callbacks, call.agent);
    PartsCall(Pipe(l), l.inHand, a, past, s.commands - {call.agent}, s.calls, s.callbacks, c,
              call.(phase := Done(call.phase.result)));
    assert LinkOf(ApplyCaller(s, c, Leave), a) == l;
  }

  // ------------------------------------------------------------ the manager's receive loop

  lemma PartsHold(pipe: multiset<RequestId>, a: AgentId, past: set<CallId>, commands: map<AgentId, CallId>,
                  calls: map<CallId, Call>, callbacks: Queues, m: Message)
    requires CleanParts(pipe, None, a, past, commands, calls, callbacks)
    requires m.id in pipe && m.id !in callbacks && a in commands
    ensures CleanParts(pipe, Some(Delivery(m, commands[a])), a, past, commands, calls, callbacks)
  {
  }

  lemma CleanRoute(s: State, a: AgentId, past: set<CallId>, b: AgentId)
    requires Clean(s, a, past)
    ensures Clean(ApplyManager(s, b, Route), a, past)
  {
    RouteKeeps(s, b);
    if b != a {
      CleanElsewhere(s, ApplyManager(s, b, Route), a, past);
    } else if a in s.links && s.links[a].toManager != [] && s.links[a].inHand.None? {
      CleanRouteHere(s, a, past);
    }
  }

  lemma RouteKeeps(s: State, b: AgentId)
    ensures var t := ApplyManager(s, b, Route);
            t.commands == s.commands && t.calls == s.calls && t.callbacks.Keys == s.callbacks.Keys
            && forall a :: a != b ==> LinkOf(t, a) == LinkOf(s, a)
  {
  }

  lemma CleanRouteHere(s: State, a: AgentId, past: set<CallId>)
    requires Clean(s, a, past) && a in s.links && s.links[a].toManager != [] && s.links[a].inHand.None?
    ensures Clean(ApplyManager(s, a, Route), a, past)
  {
    var l := s.links[a];
    var m := l.toManager[0];
    var t := ApplyManager(s, a, Route);
    if m.id !in s.callbacks && a in s.commands {
      PipePop(l, s.commands[a]);
      PartsHold(Pipe(l), a, past, s.commands, s.calls, s.callbacks, m);
      assert LinkOf(t, a) == Popped(l).(inHand := Some(Delivery(m, s.commands[a])));
    } else {
      PipePop(l, 0);
      var u := s.(links := s.links[a := Popped(l)]);
      CleanLink(s, a, past, a, Popped(l));
      RouteKeeps(s, a);
      CleanElsewhere(u, t, a, past);
    }
  }

  lemma PartsArrive(pipe: multiset<RequestId>, d: Delivery, a: AgentId, past: set<CallId>,
                    commands: map<AgentId, CallId>, calls: map<CallId, Call>, callbacks: Queues)
    requires CleanParts(pipe + multiset{d.msg.id}, Some(d), a, past, commands, calls, callbacks)
    ensures CleanParts(pipe, None, a, past, commands, calls, callbacks)
    ensures CleanParts(pipe, None, a, past, commands, calls[d.call := calls[d.call].(slot := Some(d.msg))], callbacks)
  {
  }

  lemma CleanDeliver(s: State, a: AgentId, past: set<CallId>, b: AgentId)
    requires Replies(s.links, s.calls) && Clean(s, a, past)
    ensures Clean(ApplyManager(s, b, Deliver), a, past)
  {
    if b in s.links && s.links[b].inHand.Some? {
      if b == a {
        CleanDeliverHere(s, a, past);
      } else {
        assert s.calls[s.links[b].inHand.value.call].agent == b;
        CleanDeliverThere(s, a, past, b);
      }
    }
  }

  // The only call whose reply channel may change is the one the message was looked up for.
  lemma DeliverKeeps(s: State, b: AgentId)
    requires b in s.links && s.links[b].inHand.Some? && s.links[b].inHand.value.call in s.calls
    ensures var d := s.links[b].inHand.value;
            var t := ApplyManager(s, b, Deliver);
            && t.commands == s.commands && t.callbacks == s.callbacks
            && t.calls == (if s.calls[d.call].slot.None? then s.calls[d.call := s.calls[d.call].(slot := Some(d.msg))]
                           else s.calls)
            && t.links == s.links[b := s.links[b].(inHand := None)]
  {
  }

  lemma CleanDeliverHere(s: State, a: AgentId, past: set<CallId>)
    requires Clean(s, a, past) && a in s.links && s.links[a].inHand.Some?
    ensures Clean(ApplyManager(s, a, Deliver), a, past)
  {
    var l := s.links[a].(inHand := None);
    PipeRelease(s.links[a]);
    PartsArrive(Pipe(l), s.links[a].inHand.value, a, past, s.commands, s.calls, s.callbacks);
    DeliverKeeps(s, a);
  }

  lemma CleanDeliverThere(s: State, a: AgentId, past: set<CallId>, b: AgentId)
    requires Clean(s, a, past) && a != b && b in s.links && s.links[b].inHand.Some?
    requires s.links[b].inHand.value.call in s.calls && s.calls[s.links[b].inHand.value.call].agent == b
    ensures Clean(ApplyManager(s, b, Deliver), a, past)
  {
    var l, d := LinkOf(s, a), s.links[b].inHand.value;
    PartsCall(Pipe(l), l.inHand, a, past, s.commands, s.calls, s.callbacks, d.call,
              s.calls[d.call].(slot := Some(d.msg)));
    DeliverKeeps(s, b);
  }

  lemma CleanManager(s: State, a: AgentId, past: set<CallId>, b: AgentId, k: ManagerStep)
    requires Replies(s.links, s.calls) && Clean(s, a, past)
    ensures Clean(ApplyManager(s, b, k), a, past)
  {
    if k.Route? {
      CleanRoute(s, a, past, b);
    } else {
      CleanDeliver(s, a, past, b);
    }
  }

  lemma CleanApply(s: State, a: AgentId, past: set<CallId>, step: Step)
    requires Inv(s) && Clean(s, a, past) && CleanStep(s, a, step)
    ensures Clean(Apply(s, step), a, past)
  {
    match step
    case Caller(c, k) => CleanCaller(s, a, past, c, k);
    case Streamer(id, k) => CleanStream(s, a, past, id, k);
    case Agent(b, k) => CleanAgent(s, a, past, b, k);
    case Manager(b, k) => CleanManager(s, a, past, b, k);
  }

  lemma {:induction false} CleanKept(s: State, a: AgentId, past: set<CallId>, steps: seq<Step>)
    requires Inv(s) && Clean(s, a, past) && CleanRun(s, a, steps)
    ensures Inv(Run(s, steps)) && Clean(Run(s, steps), a, past)
    decreases |steps|
  {
    if steps != [] {
      InvStep(s, steps[0]);
      CleanApply(s, a, past, steps[0]);
      CleanKept(Apply(s, steps[0]), a, past, steps[1..]);
    }
  }

  // ---------------------------------------------------------------- the exact condition

  // No clean continuation makes a later command to a return the reply to something else.
  ghost predicate Correlated(s: State, a: AgentId) {
    forall steps, c :: CleanRun(s, a, steps) && c in Run(s, steps).calls && c !in s.calls ==>
      OwnReply(Run(s, steps).calls[c], a)
  }

  predicate OwnReply(call: Call, a: AgentId) {
    call.agent == a && Result(call).Some? ==> Result(call).value.agent == a && Result(call).value.id == call.id
  }

  predicate Idle(s: State, a: AgentId) {
    a in s.links && a !in s.commands && s.links[a].inHand.None?
  }

  lemma {:induction false} RunConcat(s: State, a: AgentId, xs: seq<Step>, ys: seq<Step>)
    ensures Run(s, xs + ys) == Run(Run(s, xs), ys)
    ensures CleanRun(s, a, xs) && CleanRun(Run(s, xs), a, ys) ==> CleanRun(s, a, xs + ys)
    decreases |xs|
  {
    if xs == [] {
      assert xs + ys == ys;
    } else {
      assert (xs + ys)[1..] == xs[1..] + ys;
      RunConcat(Apply(s, xs[0]), a, xs[1..], ys);
    }
  }

  lemma {:induction false} MessageAt(q: seq<Message>, id: RequestId) returns (k: nat)
    requires id in MessageIds(q)
    ensures k < |q| && q[k].id == id
  {
    if q[0].id == id {
      k := 0;
    } else {
      k := MessageAt(q[1..], id);
      k := k + 1;
    }
  }

  lemma {:induction false} EnvelopeAt(q: seq<Envelope>, id: RequestId) returns (k: nat)
    requires id in EnvelopeIds(q)
    ensures k < |q| && q[k].id == id && !q[k].StreamStop?
  {
    if q[0].id == id && !q[0].StreamStop? {
      k := 0;
    } else {
      k := EnvelopeAt(q[1..], id);
      k := k + 1;
    }
  }

  // Only agent a moved, and nothing was taken from or added to the callbacks and calls.
  predicate Moved(s: State, t: State, a: AgentId) {
    Idle(t, a) && t.commands == s.commands && t.calls == s.calls && t.issued == s.issued
    && t.callbacks.Keys == s.callbacks.Keys
  }

  lemma RunCons(s: State, a: AgentId, step: Step, rest: seq<Step>)
    ensures Run(s, [step] + rest) == Run(Apply(s, step), rest)
    ensures CleanRun(s, a, [step] + rest) <==> CleanStep(s, a, step) && CleanRun(Apply(s, step), a, rest)
  {
    assert ([step] + rest)[1..] == rest;
  }

  // One step of agent a, followed by a run.
  lemma AgentMove(s: State, a: AgentId, k: AgentStep, rest: seq<Step>)
    requires Idle(s, a)
    ensures var t := Apply(s, Agent(a, k)); Moved(s, t, a) && t.links[a] == ApplyAgent(a, s.links[a], k)
    ensures Run(s, [Agent(a, k)] + rest) == Run(Apply(s, Agent(a, k)), rest)
    ensures CleanRun(s, a, [Agent(a, k)] + rest) <==> CleanRun(Apply(s, Agent(a, k)), a, rest)
  {
    AgentKeepsHistory(a, s.links[a], k);
    RunCons(s, a, Agent(a, k), rest);
  }

  // An idle agent can turn an unanswered envelope or a live stream into a message.
  lemma Answers(a: AgentId, l: Link, id: RequestId, body: Body) returns (k: AgentStep)
    requires id in l.streams || id in EnvelopeIds(l.working)
    ensures ApplyAgent(a, l, k).toManager == l.toManager + [Message(a, id, body)]
  {
    if id in l.streams {
      k := EmitChunk(id, body);
    } else {
      var i := EnvelopeAt(l.working, id);
      k := Act(i, Some(body));
    }
  }

  // Whatever token agent a still holds, it can turn into a message to the manager.
  lemma {:induction false} Surfaces(s: State, a: AgentId, id: RequestId) returns (steps: seq<Step>, k: nat)
    requires Idle(s, a) && id in Pipe(s.links[a])
    ensures CleanRun(s, a, steps)
    ensures var t := Run(s, steps);
            Moved(s, t, a) && k < |t.links[a].toManager| && t.links[a].toManager[k].id == id
    decreases |s.links[a].toAgent|
  {
    var l := s.links[a];
    if id in MessageIds(l.toManager) {
      k := MessageAt(l.toManager, id);
      steps := [];
    } else if id in l.streams || id in EnvelopeIds(l.working) {
      var g := Answers(a, l, id, 0);
      AgentMove(s, a, g, []);
      steps, k := [Agent(a, g)] + [], |l.toManager|;
    } else {
      steps, k := SurfacesLater(s, a, id);
    }
  }

  lemma {:induction false} SurfacesLater(s: State, a: AgentId, id: RequestId) returns (steps: seq<Step>, k: nat)
    requires Idle(s, a) && id in Pipe(s.links[a]) && s.links[a].toAgent != []
    ensures CleanRun(s, a, steps)
    ensures var t := Run(s, steps);
            Moved(s, t, a) && k < |t.links[a].toManager| && t.links[a].toManager[k].id == id
    decreases |s.links[a].toAgent|, 0
  {
    PipeTake(a, s.links[a]);
    AgentMove(s, a, Take, []);
    steps, k := Surfaces(Apply(s, Agent(a, Take)), a, id);
    AgentMove(s, a, Take, steps);
    steps := [Agent(a, Take)] + steps;
  }

  lemma RouteMove(s: State, a: AgentId)
    requires Idle(s, a) && s.links[a].toManager != []
    ensures var t := ApplyManager(s, a, Route);
            Moved(s, t, a) && t.links[a].toManager == s.links[a].toManager[1..]
  {
  }

  // While no command is pending the receive loop hands messages to callbacks or drops them.
  lemma {:induction false} Drains(s: State, a: AgentId, k: nat) returns (steps: seq<Step>)
    requires Idle(s, a) && k < |s.links[a].toManager|
    ensures CleanRun(s, a, steps)
    ensures var t := Run(s, steps); Moved(s, t, a) && t.links[a].toManager == s.links[a].toManager[k..]
    decreases k
  {
    if k == 0 {
      steps := [];
    } else {
      RouteMove(s, a);
      steps := Drains(Apply(s, Manager(a, Route)), a, k - 1);
      assert s.links[a].toManager[1..][k - 1..] == s.links[a].toManager[k..];
      RunCons(s, a, Manager(a, Route), steps);
      steps := [Manager(a, Route)] + steps;
    }
  }

  // The next command takes the message at the head of the queue for its own reply.
  lemma Misdelivers(s: State, a: AgentId, c: CallId, id: RequestId)
    requires Idle(s, a) && s.links[a].toManager != [] && s.links[a].toManager[0].id !in s.callbacks
    requires c !in s.calls && id !in s.issued && id != ""
    ensures var steps := Hijack(a, c, id);
            CleanRun(s, a, steps) && c in Run(s, steps).calls
            && Run(s, steps).calls[c] == Call(a, id, Leaving(Some(s.links[a].toManager[0])), Some(s.links[a].toManager[0]))
  {
    var m := s.links[a].toManager[0];
    var s2 := Asks(s, a, c, id);
    var s4 := Arrives(s2, a, c);
    var s5 := Apply(s4, Caller(c, Receive));
    RunCons(s4, a, Caller(c, Receive), []);
    RunCons(Apply(s2, Manager(a, Route)), a, Manager(a, Deliver), [Caller(c, Receive)]);
    RunCons(s2, a, Manager(a, Route), [Manager(a, Deliver), Caller(c, Receive)]);
    var tail := [Manager(a, Route), Manager(a, Deliver), Caller(c, Receive)];
    RunCons(Apply(s, Caller(c, Begin(a, id))), a, Caller(c, Send(true)), tail);
    RunCons(s, a, Caller(c, Begin(a, id)), [Caller(c, Send(true))] + tail);
  }

  lemma Asks(s: State, a: AgentId, c: CallId, id: RequestId) returns (t: State)
    requires Idle(s, a) && c !in s.calls && id !in s.issued && id != ""
    ensures t == Apply(Apply(s, Caller(c, Begin(a, id))), Caller(c, Send(true)))
    ensures a in t.links && t.links[a].toManager == s.links[a].toManager && t.links[a].inHand.None?
    ensures a in t.commands && t.commands[a] == c && c in t.calls && t.calls[c] == Call(a, id, Waiting, None)
    ensures t.callbacks == s.callbacks
  {
    var s1 := Apply(s, Caller(c, Begin(a, id)));
    assert s1.calls[c] == Call(a, id, Registered, None) && s1.links == s.links;
    t := Apply(s1, Caller(c, Send(true)));
  }

  lemma Arrives(s: State, a: AgentId, c: CallId) returns (t: State)
    requires a in s.links && s.links[a].toManager != [] && s.links[a].inHand.None?
    requires s.links[a].toManager[0].id !in s.callbacks
    requires a in s.commands && s.commands[a] == c && c in s.calls && s.calls[c].slot.None?
    ensures t == Apply(Apply(s, Manager(a, Route)), Manager(a, Deliver))
    ensures c in t.calls && t.calls[c] == s.calls[c].(slot := Some(s.links[a].toManager[0]))
    ensures t.links.Keys == s.links.Keys
  {
    var s1 := Apply(s, Manager(a, Route));
    assert s1.links[a].inHand == Some(Delivery(s.links[a].toManager[0], c)) && s1.calls == s.calls;
    t := Apply(s1, Manager(a, Deliver));
  }

  function Hijack(a: AgentId, c: CallId, id: RequestId): seq<Step> {
    [Caller(c, Begin(a, id)), Caller(c, Send(true)), Manager(a, Route), Manager(a, Deliver), Caller(c, Receive)]
  }

  lemma FreshRequest(issued: set<RequestId>) returns (id: RequestId)
    ensures id !in issued && id != ""
    ensures forall x :: x in issued ==> |x| < |id|
  {
    if issued == {} {
      id := "r";
    } else {
      var x :| x in issued;
      id := FreshRequest(issued - {x});
      id := if |x| < |id| then id else x + "r";
    }
  }

  lemma StrayReply(s: State, a: AgentId, id: RequestId)
    requires Inv(s) && Idle(s, a) && id in Pipe(s.links[a]) && id !in s.callbacks
    ensures !Correlated(s, a)
  {
    PipeOrigin(s, a, id);
    var c := FreshNumber(s.calls.Keys);
    var own := FreshRequest(s.issued);
    var steps := Mixup(s, a, id, c, own);
    assert c in Run(s, steps).calls && !OwnReply(Run(s, steps).calls[c], a);
  }

  lemma Mixup(s: State, a: AgentId, id: RequestId, c: CallId, own: RequestId) returns (steps: seq<Step>)
    requires Idle(s, a) && id in Pipe(s.links[a]) && id !in s.callbacks
    requires c !in s.calls && own !in s.issued && own != ""
    ensures CleanRun(s, a, steps) && c in Run(s, steps).calls
    ensures var call := Run(s, steps).calls[c];
            call.agent == a && call.id == own && Result(call).Some? && Result(call).value.id == id
  {
    var up, k := Surfaces(s, a, id);
    var t := Run(s, up);
    var down := Drains(t, a, k);
    Misdelivers(Run(t, down), a, c, own);
    RunConcat(s, a, up, down);
    RunConcat(s, a, up + down, Hijack(a, c, own));
    steps := up + down + Hijack(a, c, own);
  }

  // An idle agent answers later commands with their own replies, however the run continues cleanly,
  // if and only if every token on its way from it already has a callback.
  lemma CorrelationExact(s: State, a: AgentId)
    requires Inv(s) && Idle(s, a)
    ensures Correlated(s, a) <==> forall id :: id in Pipe(s.links[a]) ==> id in s.callbacks
  {
    if forall id :: id in Pipe(s.links[a]) ==> id in s.callbacks {
      assert Clean(s, a, s.calls.Keys);
      forall steps, c | CleanRun(s, a, steps) && c in Run(s, steps).calls && c !in s.calls
        ensures OwnReply(Run(s, steps).calls[c], a)
      {
        CleanKept(s, a, s.calls.Keys, steps);
        OwnReplyOf(Run(s, steps), a, s.calls.Keys, c);
      }
    } else {
      var id :| id in Pipe(s.links[a]) && id !in s.callbacks;
      StrayReply(s, a, id);
    }
  }

  lemma OwnReplyOf(s: State, a: AgentId, past: set<CallId>, c: CallId)
    requires Replies(s.links, s.calls) && Clean(s, a, past)
    requires c in s.calls && c !in past
    ensures OwnReply(s.calls[c], a)
  {
  }

  // From the empty state, with every step clean on every agent, each command returns its own reply.
  lemma EveryCleanRun(steps: seq<Step>, a: AgentId)
    requires CleanRun(Init(), a, steps)
    ensures var s := Run(Init(), steps); forall c :: c in s.calls ==> OwnReply(s.calls[c], a)
  {
    InitInv();
    assert Clean(Init(), a, {});
    CleanKept(Init(), a, {}, steps);
    var s := Run(Init(), steps);
    forall c | c in s.calls
      ensures OwnReply(s.calls[c], a)
    {
      OwnReplyOf(s, a, {}, c);
    }
  }
}
