/** Runs from the empty state in which a command returns the reply to something else. */
module ProtocolWitness {
  import opened Common
  import opened Protocol
  import opened ProtocolTokens
  import opened ProtocolCorrelation

  // An agent that has connected and has one message on its way to the manager.
  function Late(a: AgentId, id: RequestId, body: Body, asked: map<RequestId, CallId>, started: set<RequestId>, streams: multiset<RequestId>): Link {
    Link([], [], streams, [Message(a, id, body)], None, asked, started)
  }

  // A command is sent and given up; the agent takes it and answers it.
  function GiveUp(a: AgentId, id: RequestId, body: Body): seq<Step> {
    [Agent(a, Connect), Caller(1, Begin(a, id)), Caller(1, Send(true)), Caller(1, Abandon), Caller(1, Leave),
     Agent(a, Take), Agent(a, Act(0, Some(body)))]
  }

  // A stream is started and its goroutine sends a chunk; then the caller stops listening.
  function StopListening(a: AgentId, id: RequestId, body: Body): seq<Step> {
    [Agent(a, Connect), Streamer(id, StreamStep.Register(a)), Streamer(id, SendStart), Agent(a, Take), Agent(a, Act(0, None)),
     Agent(a, EmitChunk(id, body)), Streamer(id, Unregister)]
  }

  lemma {:induction false} Seven(s: State, x: seq<Step>)
    requires |x| == 7
    ensures Run(s, x) == Apply(Apply(Apply(Apply(Apply(Apply(Apply(s, x[0]), x[1]), x[2]), x[3]), x[4]), x[5]), x[6])
  {
    var s4 := Apply(Apply(Apply(Apply(s, x[0]), x[1]), x[2]), x[3]);
    Drop(s, x, 0);
    Drop(Apply(s, x[0]), x, 1);
    Drop(Apply(Apply(s, x[0]), x[1]), x, 2);
    Drop(Apply(Apply(Apply(s, x[0]), x[1]), x[2]), x, 3);
    Drop(s4, x, 4);
    Drop(Apply(s4, x[4]), x, 5);
    Drop(Apply(Apply(s4, x[4]), x[5]), x, 6);
    assert x[0..] == x && x[7..] == [];
  }

  lemma Drop(s: State, x: seq<Step>, k: nat)
    requires k < |x|
    ensures Run(s, x[k..]) == Run(Apply(s, x[k]), x[k + 1..])
  {
    assert x[k..][1..] == x[k + 1..];
  }

  lemma GiveUpSends(a: AgentId, id: RequestId)
    requires id != ""
    ensures var s := Apply(Apply(Apply(Init(), Agent(a, Connect)), Caller(1, Begin(a, id))), Caller(1, Send(true)));
            s == State(map[a := Link([Command(id)], [], multiset{}, [], None, map[id := 1], {})], map[a := 1],
                       map[1 := Call(a, id, Waiting, None)], map[], map[], {id})
  {
    var s1 := Apply(Init(), Agent(a, Connect));
    assert s1.links == map[a := Link([], [], multiset{}, [], None, map[], {})];
    var s2 := Apply(s1, Caller(1, Begin(a, id)));
    assert s2.calls == map[1 := Call(a, id, Registered, None)] && s2.commands == map[a := 1];
    assert s2.issued == {id} && s2.links == s1.links;
    var s3 := Apply(s2, Caller(1, Send(true)));
    assert s3.links[a].toAgent == [Command(id)] && s3.links[a].asked == map[id := 1];
    assert s3.links == map[a := Link([Command(id)], [], multiset{}, [], None, map[id := 1], {})];
    assert s3.calls == map[1 := Call(a, id, Waiting, None)];
  }

  lemma GiveUpLeaves(a: AgentId, id: RequestId)
    ensures var l := Link([Command(id)], [], multiset{}, [], None, map[id := 1], {});
            var s := State(map[a := l], map[a := 1], map[1 := Call(a, id, Waiting, None)], map[], map[], {id});
            Apply(Apply(s, Caller(1, Abandon)), Caller(1, Leave))
            == State(map[a := l], map[], map[1 := Call(a, id, Done(None), None)], map[], map[], {id})
  {
    var l := Link([Command(id)], [], multiset{}, [], None, map[id := 1], {});
    var s := State(map[a := l], map[a := 1], map[1 := Call(a, id, Waiting, None)], map[], map[], {id});
    var s1 := Apply(s, Caller(1, Abandon));
    assert s1.calls == map[1 := Call(a, id, Leaving(None), None)];
    var s2 := Apply(s1, Caller(1, Leave));
    assert s2.calls == map[1 := Call(a, id, Done(None), None)] && s2.commands == map[];
  }

  lemma TakeAct(s: State, a: AgentId, e: Envelope, answer: Option<Body>)
    requires a in s.links && s.links[a].toAgent == [e] && s.links[a].working == [] && !e.StreamStop?
    ensures var l := s.links[a];
            Apply(Apply(s, Agent(a, Take)), Agent(a, Act(0, answer)))
            == s.(links := s.links[a :=
                 if answer.Some? then l.(toAgent := [], toManager := l.toManager + [Message(a, e.id, answer.value)])
                 else if e.Command? then l.(toAgent := [])
                 else l.(toAgent := [], streams := l.streams + multiset{e.id})])
  {
    var l := s.links[a];
    var s1 := Apply(s, Agent(a, Take));
    assert s1.links[a] == l.(toAgent := [], working := [e]);
    assert [e][..0] + [e][1..] == [];
    assert s1.links[a].working[..0] + s1.links[a].working[1..] == [];
    var s2 := Apply(s1, Agent(a, Act(0, answer)));
    assert s2.links == s.links[a := s2.links[a]];
  }

  // The state a given-up command leaves behind: reached from the empty one, idle, with an answer under
  // way that nobody claims.
  lemma GivenUp(a: AgentId, id: RequestId, body: Body)
    requires id != ""
    ensures Run(Init(), GiveUp(a, id, body))
         == State(map[a := Late(a, id, body, map[id := 1], {}, multiset{})], map[], map[1 := Call(a, id, Done(None), None)], map[], map[], {id})
  {
    var s1 := Apply(Init(), Agent(a, Connect));
    var s2 := Apply(s1, Caller(1, Begin(a, id)));
    var s3 := Apply(s2, Caller(1, Send(true)));
    var s4 := Apply(s3, Caller(1, Abandon));
    var s5 := Apply(s4, Caller(1, Leave));
    var s6 := Apply(s5, Agent(a, Take));
    GiveUpSends(a, id);
    GiveUpLeaves(a, id);
    TakeAct(s5, a, Command(id), Some(body));
    var s7 := Apply(s6, Agent(a, Act(0, Some(body))));
    assert s7.links[a].toManager == [Message(a, id, body)];
    assert s7.links == map[a := Late(a, id, body, map[id := 1], {}, multiset{})];
    Seven(Init(), GiveUp(a, id, body));
  }

  // A late reply: the next command to the agent returns the reply to the one that was given up.
  lemma LateReply(a: AgentId, id: RequestId, body: Body, own: RequestId)
    requires id != "" && own != "" && own != id
    ensures var s := Run(Init(), GiveUp(a, id, body));
            && Inv(s) && Idle(s, a) && id in Pipe(s.links[a]) && id !in s.callbacks && !Correlated(s, a)
    ensures var t := Run(Init(), GiveUp(a, id, body) + Hijack(a, 2, own));
            && 2 in t.calls && t.calls[2].agent == a && t.calls[2].id == own
            && Result(t.calls[2]) == Some(Message(a, id, body))
  {
    var s := Run(Init(), GiveUp(a, id, body));
    GivenUp(a, id, body);
    InitInv();
    RunInv(Init(), GiveUp(a, id, body));
    InPipe(a, id, body, s.links[a]);
    StrayReply(s, a, id);
    Misdelivers(s, a, 2, own);
    RunConcat(Init(), a, GiveUp(a, id, body), Hijack(a, 2, own));
  }

  lemma InPipe(a: AgentId, id: RequestId, body: Body, l: Link)
    requires l.toManager == [Message(a, id, body)]
    ensures id in Pipe(l)
  {
    assert MessageIds(l.toManager)[id] == 1 by {
      assert l.toManager[1..] == [];
    }
  }

  lemma Streaming(a: AgentId, id: RequestId)
    requires id != ""
    ensures var s := Apply(Apply(Apply(Init(), Agent(a, Connect)), Streamer(id, StreamStep.Register(a))), Streamer(id, SendStart));
            s == State(map[a := Link([StreamStart(id)], [], multiset{}, [], None, map[], {id})], map[], map[],
                       map[id := []], map[id := a], {id})
  {
    var s1 := Apply(Init(), Agent(a, Connect));
    assert s1.links == map[a := Link([], [], multiset{}, [], None, map[], {})];
    var s2 := Apply(s1, Streamer(id, StreamStep.Register(a)));
    assert s2 == State(s1.links, map[], map[], map[id := []], map[id := a], {id});
    var s3 := Apply(s2, Streamer(id, SendStart));
    assert s3.links[a].toAgent == [StreamStart(id)] && s3.links[a].started == {id};
    assert s3.links == map[a := Link([StreamStart(id)], [], multiset{}, [], None, map[], {id})];
  }

  lemma Stopped(a: AgentId, id: RequestId, body: Body)
    requires id != ""
    ensures Run(Init(), StopListening(a, id, body))
         == State(map[a := Late(a, id, body, map[], {id}, multiset{id})], map[], map[], map[], map[id := a], {id})
  {
    var s1 := Apply(Init(), Agent(a, Connect));
    var s2 := Apply(s1, Streamer(id, StreamStep.Register(a)));
    var s3 := Apply(s2, Streamer(id, SendStart));
    var s4 := Apply(s3, Agent(a, Take));
    var s5 := Apply(s4, Agent(a, Act(0, None)));
    var s6 := Apply(s5, Agent(a, EmitChunk(id, body)));
    Streaming(a, id);
    TakeAct(s3, a, StreamStart(id), None);
    assert s5.links[a].toAgent == [] && s5.links[a].streams == multiset{id};
    assert s5.links == map[a := Link([], [], multiset{id}, [], None, map[], {id})];
    assert s6.links[a].toManager == [Message(a, id, body)];
    assert s6.links == map[a := Late(a, id, body, map[], {id}, multiset{id})];
    assert Apply(s6, Streamer(id, Unregister)).callbacks == map[];
    Seven(Init(), StopListening(a, id, body));
  }

  // A chunk of a stopped stream: the next command returns it as its reply.
  lemma StrayChunk(a: AgentId, id: RequestId, body: Body, own: RequestId)
    requires id != "" && own != "" && own != id
    ensures var s := Run(Init(), StopListening(a, id, body));
            && Inv(s) && Idle(s, a) && id in Pipe(s.links[a]) && id !in s.callbacks && !Correlated(s, a)
    ensures var t := Run(Init(), StopListening(a, id, body) + Hijack(a, 1, own));
            && 1 in t.calls && t.calls[1].agent == a && t.calls[1].id == own
            && Result(t.calls[1]) == Some(Message(a, id, body))
  {
    var s := Run(Init(), StopListening(a, id, body));
    Stopped(a, id, body);
    InitInv();
    RunInv(Init(), StopListening(a, id, body));
    InPipe(a, id, body, s.links[a]);
    StrayReply(s, a, id);
    Misdelivers(s, a, 1, own);
    RunConcat(Init(), a, StopListening(a, id, body), Hijack(a, 1, own));
  }

  // ---------------------------------------------------------------- the ordinary case

  function Exchange(a: AgentId, c: CallId, id: RequestId, body: Body): seq<Step> {
    [Caller(c, Begin(a, id)), Caller(c, Send(true)), Agent(a, Take), Agent(a, Act(0, Some(body))),
     Manager(a, Route), Manager(a, Deliver), Caller(c, Receive)]
  }

  // From every state in which the agent is idle and its connection empty, a command that is sent, taken
  // and answered returns exactly that answer.
  lemma OwnAnswer(s: State, a: AgentId, c: CallId, id: RequestId, body: Body)
    requires Idle(s, a) && s.links[a].toAgent == [] && s.links[a].working == [] && s.links[a].toManager == []
    requires c !in s.calls && id !in s.issued && id != "" && id !in s.callbacks
    ensures var t := Run(s, Exchange(a, c, id, body));
            c in t.calls && t.calls[c].id == id && Result(t.calls[c]) == Some(Message(a, id, body))
  {
    var s2 := Asks(s, a, c, id);
    AskedEnvelope(s, a, c, id);
    var s4 := Apply(Apply(s2, Agent(a, Take)), Agent(a, Act(0, Some(body))));
    TakeAct(s2, a, Command(id), Some(body));
    assert s4.links[a].toManager == [Message(a, id, body)];
    var s6 := Arrives(s4, a, c);
    assert s6.calls[c] == Call(a, id, Waiting, Some(Message(a, id, body)));
    Seven(s, Exchange(a, c, id, body));
  }

  lemma AskedEnvelope(s: State, a: AgentId, c: CallId, id: RequestId)
    requires Idle(s, a) && s.links[a].toAgent == [] && c !in s.calls && id !in s.issued && id != ""
    ensures var t := Apply(Apply(s, Caller(c, Begin(a, id))), Caller(c, Send(true)));
            a in t.links && t.links[a].toAgent == [Command(id)] && t.links[a].working == s.links[a].working
  {
    var s1 := Apply(s, Caller(c, Begin(a, id)));
    assert s1.calls[c] == Call(a, id, Registered, None) && s1.links == s.links;
  }
}
