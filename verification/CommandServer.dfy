/** The manager's locked sections, each proved to be the protocol step it stands for. */
module CommandServer {
  import opened Common
  import opened Protocol

  class Server {
    var commands: map<AgentId, CallId>             // the reply channel of the pending command
    var replies: map<CallId, Option<Message>>      // what each reply channel of capacity one holds
    var callbacks: map<RequestId, seq<Message>>

    // These fields are the manager's part of a protocol state.
    ghost predicate Shows(s: State)
      reads this
    {
      && commands == s.commands && callbacks == s.callbacks && "" !in callbacks
      && replies.Keys == s.calls.Keys && forall c :: c in s.calls ==> replies[c] == s.calls[c].slot
    }

    constructor ()
      ensures Shows(Init())
    {
      commands, replies, callbacks := map[], map[], map[];
    }

    // SendCommand up to the send: a new reply channel, refused when a command is pending.
    method BeginCommand(agent: AgentId, id: RequestId, call: CallId, ghost s: State) returns (ok: bool)
      requires Shows(s) && agent in s.links && call !in s.calls && id !in s.issued && id != ""
      modifies this
      ensures ok <==> agent !in old(commands)
      ensures Shows(Apply(s, Caller(call, Begin(agent, id))))
    {
      replies := replies[call := None];
      if agent in commands {
        return false;
      }
      commands := commands[agent := call];
      ok := true;
    }

    // The deferred delete.
    method EndCommand(agent: AgentId, call: CallId, ghost s: State)
      requires Shows(s) && call in s.calls && s.calls[call].agent == agent && agent in s.links
      requires s.calls[call].phase.Leaving?
      modifies this
      ensures agent !in commands && Shows(Apply(s, Caller(call, Leave)))
    {
      commands := commands - {agent};
    }

    // A callback already there is replaced; with a fresh id this is the protocol's registration step.
    method RegisterStreamCallback(id: RequestId, agent: AgentId, ghost s: State)
      requires Shows(s)
      modifies this
      ensures callbacks == old(callbacks)[id := []] && commands == old(commands) && replies == old(replies)
      ensures id !in s.issued && id != "" ==> Shows(Apply(s, Streamer(id, StreamStep.Register(agent))))
    {
      callbacks := callbacks[id := []];
    }

    method UnregisterStreamCallback(id: RequestId, ghost s: State)
      requires Shows(s)
      modifies this
      ensures id !in callbacks && Shows(Apply(s, Streamer(id, Unregister)))
    {
      callbacks := callbacks - {id};
    }

    // routeResponse: the lookup and the send that does not wait, one after the other.
    method RouteResponse(agent: AgentId, msg: Message, ghost s: State)
      requires Shows(s) && Pending(s.commands, s.calls)
      requires agent in s.links && s.links[agent].inHand.None?
      requires s.links[agent].toManager != [] && msg == s.links[agent].toManager[0]
      modifies this
      ensures Shows(Apply(Apply(s, Manager(agent, Route)), Manager(agent, Deliver)))
      ensures commands == old(commands)
      ensures msg.id in old(callbacks) ==>
                && replies == old(replies)
                && callbacks == if |old(callbacks)[msg.id]| < 64 then old(callbacks)[msg.id := old(callbacks)[msg.id] + [msg]] else old(callbacks)
      ensures msg.id !in old(callbacks) ==>
                && callbacks == old(callbacks)
                && replies == if agent in commands && old(replies)[commands[agent]].None?
                              then old(replies)[commands[agent] := Some(msg)] else old(replies)
    {
      if msg.id != "" && msg.id in callbacks {
        if |callbacks[msg.id]| < CALLBACK_CAPACITY {
          callbacks := callbacks[msg.id := callbacks[msg.id] + [msg]];
        }
        return;
      }
      if agent !in commands {
        return;
      }
      var call := commands[agent];
      if replies[call].None? {
        replies := replies[call := Some(msg)];
      }
    }
  }
}
