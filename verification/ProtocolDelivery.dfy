/** What reaches its destination: the messages of a connection, and those of a stream with a callback. */
module ProtocolDelivery {
  import opened Common
  import opened Protocol
  import opened ProtocolTokens
  import opened ProtocolCorrelation

  // ---------------------------------------------------------------- the wire to the manager

  // What the agent puts on the wire in a step: its answer to an envelope that is not a stop, or a
  // chunk of a running stream.
  function Sent(s: State, step: Step, a: AgentId): seq<Message> {
    if !step.Agent? || step.agent != a then []
    else
      var l := LinkOf(s, a);
      match step.g
      case Act(i, answer) =>
        if i < |l.working| && answer.Some? && !l.working[i].StreamStop?
        then [Message(a, l.working[i].id, answer.value)] else []
      case EmitChunk(id, body) => if id in l.streams then [Message(a, id, body)] else []
      case _ => []
  }

  // What the manager's receive loop takes off it.
  function Popped(s: State, step: Step, a: AgentId): seq<Message> {
    if step == Manager(a, Route) && a in s.links && s.links[a].inHand.None? && s.links[a].toManager != []
    then [s.links[a].toManager[0]] else []
  }

  function AllSent(s: State, steps: seq<Step>, a: AgentId): seq<Message>
    decreases |steps|
  {
    if steps == [] then [] else Sent(s, steps[0], a) + AllSent(Apply(s, steps[0]), steps[1..], a)
  }

  function AllPopped(s: State, steps: seq<Step>, a: AgentId): seq<Message>
    decreases |steps|
  {
    if steps == [] then [] else Popped(s, steps[0], a) + AllPopped(Apply(s, steps[0]), steps[1..], a)
  }

  predicate Connected(steps: seq<Step>, a: AgentId) {
    Agent(a, Connect) !in steps
  }

  lemma AgentWire(s: State, g: AgentStep, a: AgentId)
    requires !g.Connect?
    ensures ApplyAgent(a, LinkOf(s, a), g).toManager == LinkOf(s, a).toManager + Sent(s, Agent(a, g), a)
  {
  }

  lemma RouteWire(s: State, a: AgentId)
    ensures LinkOf(s, a).toManager == Popped(s, Manager(a, Route), a) + LinkOf(ApplyManager(s, a, Route), a).toManager
  {
    if Popped(s, Manager(a, Route), a) != [] {
      var q := s.links[a].toManager;
      assert q == [q[0]] + q[1..];
    }
  }

  lemma CallerWire(s: State, c: CallId, k: CallerStep, a: AgentId)
    ensures LinkOf(ApplyCaller(s, c, k), a).toManager == LinkOf(s, a).toManager
  {
  }

  lemma StreamWire(s: State, id: RequestId, k: StreamStep, a: AgentId)
    ensures LinkOf(ApplyStream(s, id, k), a).toManager == LinkOf(s, a).toManager
  {
  }

  lemma ManagerWire(s: State, b: AgentId, k: ManagerStep, a: AgentId)
    requires b != a || k.Deliver?
    ensures LinkOf(ApplyManager(s, b, k), a).toManager == LinkOf(s, a).toManager
  {
  }

  lemma OtherWire(s: State, step: Step, a: AgentId)
    requires step != Manager(a, Route) && !(step.Agent? && step.agent == a)
    ensures LinkOf(Apply(s, step), a).toManager == LinkOf(s, a).toManager
  {
    if step.Caller? {
      CallerWire(s, step.call, step.c, a);
    } else if step.Streamer? {
      StreamWire(s, step.stream, step.t, a);
    } else if step.Manager? {
      ManagerWire(s, step.agent, step.m, a);
    }
  }

  lemma WireStep(s: State, step: Step, a: AgentId)
    requires step != Agent(a, Connect)
    ensures LinkOf(s, a).toManager + Sent(s, step, a) == Popped(s, step, a) + LinkOf(Apply(s, step), a).toManager
  {
    if step == Manager(a, Route) {
      RouteWire(s, a);
    } else if step.Agent? && step.agent == a {
      AgentWire(s, step.g, a);
    } else {
      OtherWire(s, step, a);
    }
  }

  lemma Shift(q: seq<Message>, sent: seq<Message>, popped: seq<Message>, r: seq<Message>, sent': seq<Message>, popped': seq<Message>, u: seq<Message>)
    requires q + sent == popped + r && r + sent' == popped' + u
    ensures q + (sent + sent') == (popped + popped') + u
  {
    assert q + (sent + sent') == (q + sent) + sent' == popped + (r + sent') == popped + (popped' + u);
  }

  // As long as the agent stays connected, what it sends arrives in order, nothing lost or added.
  lemma {:induction false} WireRun(s: State, steps: seq<Step>, a: AgentId)
    requires Connected(steps, a)
    ensures LinkOf(s, a).toManager + AllSent(s, steps, a) == AllPopped(s, steps, a) + LinkOf(Run(s, steps), a).toManager
    decreases |steps|
  {
    if steps != [] {
      var t := Apply(s, steps[0]);
      WireStep(s, steps[0], a);
      WireRun(t, steps[1..], a);
      Shift(LinkOf(s, a).toManager, Sent(s, steps[0], a), Popped(s, steps[0], a), LinkOf(t, a).toManager,
            AllSent(t, steps[1..], a), AllPopped(t, steps[1..], a), LinkOf(Run(t, steps[1..]), a).toManager);
    }
  }

  // ---------------------------------------------------------------- one stream's callback

  function Of(id: RequestId, ms: seq<Message>): seq<Message> {
    if ms == [] then [] else (if ms[0].id == id then [ms[0]] else []) + Of(id, ms[1..])
  }

  lemma {:induction false} OfConcat(id: RequestId, a: seq<Message>, b: seq<Message>)
    ensures Of(id, a + b) == Of(id, a) + Of(id, b)
  {
    if a == [] {
      assert a + b == b;
    } else {
      assert (a + b)[1..] == a[1..] + b;
      OfConcat(id, a[1..], b);
    }
  }

  // The messages of a stream that the manager routes in a step, and what its caller consumes.
  function Heard(s: State, step: Step, id: RequestId): seq<Message> {
    if step.Manager? then Of(id, Popped(s, step, step.agent)) else []
  }

  function Consumed(s: State, step: Step, id: RequestId): seq<Message> {
    if step == Streamer(id, Consume) && id in s.callbacks && s.callbacks[id] != [] then [s.callbacks[id][0]] else []
  }

  // A message that finds 64 others waiting is lost.
  predicate Overflows(s: State, step: Step, id: RequestId) {
    Heard(s, step, id) != [] && id in s.callbacks && |s.callbacks[id]| >= 64
  }

  function AllHeard(s: State, steps: seq<Step>, id: RequestId): seq<Message>
    decreases |steps|
  {
    if steps == [] then [] else Heard(s, steps[0], id) + AllHeard(Apply(s, steps[0]), steps[1..], id)
  }

  function AllConsumed(s: State, steps: seq<Step>, id: RequestId): seq<Message>
    decreases |steps|
  {
    if steps == [] then [] else Consumed(s, steps[0], id) + AllConsumed(Apply(s, steps[0]), steps[1..], id)
  }

  function Lost(s: State, steps: seq<Step>, id: RequestId): nat
    decreases |steps|
  {
    if steps == [] then 0 else (if Overflows(s, steps[0], id) then 1 else 0) + Lost(Apply(s, steps[0]), steps[1..], id)
  }

  predicate Listening(steps: seq<Step>, id: RequestId) {
    Streamer(id, Unregister) !in steps
  }

  // The queue is below 64 in every state of the run but the last.
  predicate NeverFull(s: State, steps: seq<Step>, id: RequestId)
    decreases |steps|
  {
    steps == [] || (id in s.callbacks && |s.callbacks[id]| < 64 && NeverFull(Apply(s, steps[0]), steps[1..], id))
  }

  lemma RouteCallback(s: State, b: AgentId, id: RequestId)
    requires id in s.callbacks
    ensures var t := ApplyManager(s, b, Route);
            && id in t.callbacks
            && t.callbacks[id] == s.callbacks[id] + (if Overflows(s, Manager(b, Route), id) then [] else Heard(s, Manager(b, Route), id))
  {
    var popped := Popped(s, Manager(b, Route), b);
    if popped != [] {
      assert popped[1..] == [];
      assert Of(id, popped) == if popped[0].id == id then [popped[0]] else [];
    }
  }

  lemma CallerCallback(s: State, c: CallId, k: CallerStep)
    ensures ApplyCaller(s, c, k).callbacks == s.callbacks && s.issued <= ApplyCaller(s, c, k).issued
  {
  }

  lemma StreamCallback(s: State, x: RequestId, k: StreamStep, id: RequestId)
    requires id in s.callbacks && id in s.issued && !(x == id && k.Unregister?)
    ensures var t := ApplyStream(s, x, k);
            && id in t.callbacks && id in t.issued && s.callbacks[id] == Consumed(s, Streamer(x, k), id) + t.callbacks[id]
  {
    if Consumed(s, Streamer(x, k), id) != [] {
      assert s.callbacks[id] == [s.callbacks[id][0]] + s.callbacks[id][1..];
    }
  }

  lemma CallbackStep(s: State, step: Step, id: RequestId)
    requires id in s.callbacks && id in s.issued && step != Streamer(id, Unregister)
    ensures var t := Apply(s, step);
            && id in t.callbacks && id in t.issued
            && s.callbacks[id] + (if Overflows(s, step, id) then [] else Heard(s, step, id)) == Consumed(s, step, id) + t.callbacks[id]
  {
    if step.Caller? {
      CallerCallback(s, step.call, step.c);
    } else if step.Streamer? {
      StreamCallback(s, step.stream, step.t, id);
    } else if step.Manager? && step.m.Route? {
      RouteCallback(s, step.agent, id);
      RouteIssued(s, step.agent);
    }
  }

  lemma RouteIssued(s: State, b: AgentId)
    ensures ApplyManager(s, b, Route).issued == s.issued
  {
  }

  lemma Kept(q: seq<Message>, heard: seq<Message>, full: bool, taken: seq<Message>, r: seq<Message>,
             heard': seq<Message>, taken': seq<Message>, u: seq<Message>)
    requires q + (if full then [] else heard) == taken + r && Subsequence(taken' + u, r + heard')
    ensures Subsequence((taken + taken') + u, q + (heard + heard'))
  {
    assert (taken + taken') + u == taken + (taken' + u);
    Prepend(taken, taken' + u, r + heard');
    assert taken + (r + heard') == (q + (if full then [] else heard)) + heard';
    if full {
      Insert((taken + taken') + u, q, heard, heard');
    }
    assert q + (heard + heard') == (q + heard) + heard';
  }

  lemma Prepend(p: seq<Message>, xs: seq<Message>, ys: seq<Message>)
    requires Subsequence(xs, ys)
    ensures Subsequence(p + xs, p + ys)
  {
    var at :| Embeds(xs, ys, at);
    var at' := seq(|p| + |at|, (i: nat) requires i < |p| + |at| => if i < |p| then i else |p| + at[i - |p|]);
    assert Embeds(p + xs, p + ys, at');
  }

  lemma Insert(xs: seq<Message>, p: seq<Message>, mid: seq<Message>, ys: seq<Message>)
    requires Subsequence(xs, (p + []) + ys)
    ensures Subsequence(xs, (p + mid) + ys)
  {
    assert (p + []) + ys == p + ys;
    var at :| Embeds(xs, p + ys, at);
    var at' := seq(|at|, (i: nat) requires i < |at| => if at[i] < |p| then at[i] else |mid| + at[i]);
    assert Embeds(xs, (p + mid) + ys, at');
  }

  // From a queue q, with these messages heard, these consumed and this many lost, to a queue u.
  ghost predicate Conserves(q: seq<Message>, heard: seq<Message>, taken: seq<Message>, u: seq<Message>, lost: nat) {
    && Subsequence(taken + u, q + heard) && |q| + |heard| == |taken| + |u| + lost
    && (lost == 0 ==> q + heard == taken + u)
  }

  lemma ConservesNone(q: seq<Message>)
    ensures Conserves(q, [], [], q, 0)
  {
    assert q + [] == q && [] + q == q;
    SubsequenceRefl(q);
  }

  lemma ConservesMore(q: seq<Message>, heard: seq<Message>, full: bool, taken: seq<Message>, r: seq<Message>,
                      heard': seq<Message>, taken': seq<Message>, u: seq<Message>, lost': nat)
    requires q + (if full then [] else heard) == taken + r && (full ==> |heard| == 1) && Conserves(r, heard', taken', u, lost')
    ensures Conserves(q, heard + heard', taken + taken', u, (if full then 1 else 0) + lost')
  {
    Kept(q, heard, full, taken, r, heard', taken', u);
    assert |q + (if full then [] else heard)| == |taken + r|;
    if !full && lost' == 0 {
      Shift(q, heard, taken, r, heard', taken', u);
    }
  }

  // While the caller listens, what it consumes and what waits for it is what was routed for its stream,
  // in order; every message not among these found 64 others waiting, and there is none if that never
  // happened.
  lemma {:induction false} CallbackRun(s: State, steps: seq<Step>, id: RequestId)
    requires id in s.callbacks && id in s.issued && Listening(steps, id)
    ensures id in Run(s, steps).callbacks
    ensures Conserves(s.callbacks[id], AllHeard(s, steps, id), AllConsumed(s, steps, id), Run(s, steps).callbacks[id], Lost(s, steps, id))
    ensures NeverFull(s, steps, id) ==> Lost(s, steps, id) == 0
    decreases |steps|
  {
    if steps == [] {
      ConservesNone(s.callbacks[id]);
    } else {
      var t := Apply(s, steps[0]);
      CallbackStep(s, steps[0], id);
      CallbackRun(t, steps[1..], id);
      HeardOnce(s, steps[0], id);
      ConservesMore(s.callbacks[id], Heard(s, steps[0], id), Overflows(s, steps[0], id), Consumed(s, steps[0], id), t.callbacks[id],
                    AllHeard(t, steps[1..], id), AllConsumed(t, steps[1..], id), Run(t, steps[1..]).callbacks[id], Lost(t, steps[1..], id));
    }
  }

  lemma HeardOnce(s: State, step: Step, id: RequestId)
    ensures |Heard(s, step, id)| <= 1
    ensures Overflows(s, step, id) ==> |Heard(s, step, id)| == 1
  {
    if step.Manager? {
      var popped := Popped(s, step, step.agent);
      if popped != [] {
        assert popped[1..] == [];
        assert Of(id, popped) == if popped[0].id == id then [popped[0]] else [];
      }
    }
  }

  // ---------------------------------------------------------------- from the agent to the caller

  // Only the stream's own agent sends under its id.
  lemma HeardFromOwner(s: State, step: Step, id: RequestId)
    requires Inv(s) && id in s.callbacks
    ensures Heard(s, step, id) == Of(id, Popped(s, step, s.owner[id]))
  {
    if step.Manager? && Popped(s, step, step.agent) != [] && step.agent != s.owner[id] {
      var m := s.links[step.agent].toManager[0];
      assert LinkOk(step.agent, s.links[step.agent]);
      assert m.agent == step.agent;
      if m.id == id {
        CallbackMessage(s, step.agent, m);
        assert false;
      }
      assert Of(id, [m]) == [] + Of(id, [m][1..]) == [];
    }
  }

  lemma OwnerKept(s: State, step: Step, id: RequestId)
    requires id in s.owner && id in s.issued
    ensures id in Apply(s, step).owner && Apply(s, step).owner[id] == s.owner[id]
  {
  }

  lemma {:induction false} AllHeardFromOwner(s: State, steps: seq<Step>, id: RequestId)
    requires Inv(s) && id in s.callbacks && Listening(steps, id)
    ensures AllHeard(s, steps, id) == Of(id, AllPopped(s, steps, s.owner[id]))
    decreases |steps|
  {
    if steps != [] {
      var a, t := s.owner[id], Apply(s, steps[0]);
      assert id in s.issued;
      CallbackStep(s, steps[0], id);
      OwnerKept(s, steps[0], id);
      InvStep(s, steps[0]);
      HeardFromOwner(s, steps[0], id);
      AllHeardFromOwner(t, steps[1..], id);
      OfConcat(id, Popped(s, steps[0], a), AllPopped(t, steps[1..], a));
    }
  }

  // While the caller listens, its callback never holds 64 and its agent stays connected: everything the
  // agent sends under the stream's id is, in the order it was sent, consumed, then waiting in the
  // callback, then on the wire.
  lemma StreamDelivered(s: State, steps: seq<Step>, id: RequestId)
    requires Inv(s) && id in s.callbacks && Listening(steps, id) && Connected(steps, s.owner[id]) && NeverFull(s, steps, id)
    ensures id in Run(s, steps).callbacks
    ensures s.callbacks[id] + Of(id, LinkOf(s, s.owner[id]).toManager) + Of(id, AllSent(s, steps, s.owner[id]))
         == AllConsumed(s, steps, id) + Run(s, steps).callbacks[id] + Of(id, LinkOf(Run(s, steps), s.owner[id]).toManager)
  {
    var a := s.owner[id];
    var t := Run(s, steps);
    assert id in s.issued;
    WireRun(s, steps, a);
    CallbackRun(s, steps, id);
    AllHeardFromOwner(s, steps, id);
    OfConcat(id, LinkOf(s, a).toManager, AllSent(s, steps, a));
    OfConcat(id, AllPopped(s, steps, a), LinkOf(t, a).toManager);
    Regroup(s.callbacks[id], Of(id, LinkOf(s, a).toManager), Of(id, AllSent(s, steps, a)), AllHeard(s, steps, id),
            Of(id, LinkOf(t, a).toManager), AllConsumed(s, steps, id), t.callbacks[id]);
  }

  lemma Regroup(q: seq<Message>, w: seq<Message>, sent: seq<Message>, heard: seq<Message>, w': seq<Message>, taken: seq<Message>, q': seq<Message>)
    requires w + sent == heard + w' && q + heard == taken + q'
    ensures q + w + sent == taken + q' + w'
  {
    assert q + w + sent == q + (w + sent) == (q + heard) + w';
  }

  // ---------------------------------------------------------------- the wire to the agent

  // What callers put on the wire: a command, the start of a stream and its end, each behind what is
  // there; the agent takes them in that order; and a new connection starts with both directions empty.
  lemma WireToAgent(s: State, a: AgentId, c: CallId, id: RequestId)
    requires a in s.links
    ensures c in s.calls && s.calls[c].agent == a && s.calls[c].phase.Registered? ==>
              Apply(s, Caller(c, Send(true))).links[a].toAgent == s.links[a].toAgent + [Command(s.calls[c].id)]
    ensures id in s.owner && s.owner[id] == a ==>
              && Apply(s, Streamer(id, SendStart)).links[a].toAgent == s.links[a].toAgent + [StreamStart(id)]
              && Apply(s, Streamer(id, SendStop)).links[a].toAgent == s.links[a].toAgent + [StreamStop(id)]
    ensures s.links[a].toAgent != [] ==>
              var t := Apply(s, Agent(a, Take));
              && t.links[a].toAgent == s.links[a].toAgent[1..] && t.links[a].working == s.links[a].working + [s.links[a].toAgent[0]]
    ensures Apply(s, Agent(a, Connect)).links[a].toAgent == [] && Apply(s, Agent(a, Connect)).links[a].toManager == []
  {
  }

  // Starting a stream on the agent runs a goroutine that can send; ending it stops that.
  lemma StreamOnAgent(s: State, a: AgentId, i: nat, id: RequestId, body: Body)
    requires a in s.links && i < |s.links[a].working| && s.links[a].working[i] == StreamStart(id)
    ensures var t := Apply(s, Agent(a, Act(i, None)));
            && id in t.links[a].streams
            && Sent(t, Agent(a, EmitChunk(id, body)), a) == [Message(a, id, body)]
            && Apply(t, Agent(a, End(id))).links[a].streams == s.links[a].streams
  {
    var t := Apply(s, Agent(a, Act(i, None)));
    assert t.links[a].streams == s.links[a].streams + multiset{id};
  }
}
