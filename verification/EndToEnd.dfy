/** Protocol and codec together: what the caller of a transport method gets over the shared stream. */
module EndToEnd {
  import opened Common
  import opened Protocol
  import opened ProtocolCorrelation
  import opened ProtocolWitness
  import opened Codec

  // The commands callers issue, by request id, and how podman behaves when the agent runs each.  An
  // agent answers a command at most once, so its reply is a function of the id.
  datatype World = World(commands: map<Protocol.RequestId, Command>, podman: Protocol.RequestId -> (Codec.Call -> Outcome))

  // Every request id belongs to a command that is sent.
  ghost predicate Issues(w: World, id: Protocol.RequestId) {
    id in w.commands && Meant(w.commands[id]).Some?
  }

  // What the message with this id carries.
  function Carried(w: World, id: Protocol.RequestId): Option<Reply> {
    if id in w.commands && RequestFor(w.commands[id], id).Some?
    then Handled(Enveloped(RequestFor(w.commands[id], id).value), w.podman(id)) else None
  }

  // What a call returns to the caller of the transport method, once its select has fired with a reply.
  function Returned(w: World, call: Protocol.Call): Option<Codec.Result> {
    if Protocol.Result(call).None? || call.id !in w.commands || Carried(w, Protocol.Result(call).value.id).None? then None
    else Some(Answer(w.commands[call.id], Forwarded(Carried(w, Protocol.Result(call).value.id).value)))
  }

  // In a clean run, every command that returned with a reply gave its caller what running the command
  // on that agent's podman in place gives.
  lemma CleanRunDirect(w: World, steps: seq<Step>, a: AgentId, c: CallId)
    requires CleanRun(Init(), a, steps)
    requires c in Run(Init(), steps).calls && Run(Init(), steps).calls[c].agent == a
    requires Protocol.Result(Run(Init(), steps).calls[c]).Some? && Issues(w, Run(Init(), steps).calls[c].id)
    ensures var call := Run(Init(), steps).calls[c];
            var command := w.commands[call.id];
            Returned(w, call) == Some(Direct(command, w.podman(call.id)(Meant(command).value)))
  {
    EveryCleanRun(steps, a);
    var call := Run(Init(), steps).calls[c];
    assert OwnReply(call, a);
    RemoteIsDirect(w.commands[call.id], call.id, w.podman(call.id));
  }

  // Without cleanness it does not: after a command was given up, the next one to that agent tells its
  // caller it succeeded exactly when podman carried out the first one and the two cannot be told apart,
  // whatever became of the second.
  lemma GivenUpConfuses(w: World, a: AgentId, id: Protocol.RequestId, body: Body, own: Protocol.RequestId)
    requires id != "" && own != "" && own != id && Issues(w, id) && Issues(w, own)
    ensures var t := Run(Init(), GiveUp(a, id, body) + Hijack(a, 2, own));
            && 2 in t.calls && t.calls[2].id == own && Returned(w, t.calls[2]).Some?
            && (Succeeds(Returned(w, t.calls[2]).value) <==>
                  (w.podman(id)(Meant(w.commands[id]).value).error.None? && Confused(w.commands[id], w.commands[own])))
  {
    LateReply(a, id, body, own);
    SameCall(w.commands[id], id);
    RemoteIsDirect(w.commands[id], id, w.podman(id));
    WrongReply(w.commands[id], w.commands[own], id, w.podman(id)(Meant(w.commands[id]).value));
  }
}
