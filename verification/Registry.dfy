/** The registry of connected agents: two maps that must agree. */
module Registry {
  import opened Common

  type AgentId = string
  type Hostname = string

  datatype State = State(agents: map<AgentId, Hostname>, byHost: map<Hostname, AgentId>)

  datatype Op = Register(id: AgentId, host: Hostname) | Unregister(id: AgentId)

  function Apply(s: State, op: Op): State {
    match op
    case Register(id, host) =>
      if id == "" then s
      else
        var kept := if host in s.byHost && s.byHost[host] != id then s.agents - {s.byHost[host]} else s.agents;
        State(kept[id := host], if host != "" then s.byHost[host := id] else s.byHost)
    case Unregister(id) =>
      if id !in s.agents then s
      else
        var host := s.agents[id];
        State(s.agents - {id}, if host != "" && host in s.byHost && s.byHost[host] == id then s.byHost - {host} else s.byHost)
  }

  function Run(s: State, ops: seq<Op>): State
    decreases |ops|
  {
    if ops == [] then s else Run(Apply(s, ops[0]), ops[1..])
  }

  function Lookup(s: State, host: Hostname): Option<AgentId> {
    if host in s.byHost && s.byHost[host] in s.agents then Some(s.byHost[host]) else None
  }

  // The simple rule the index stands for: some registered agent reports this hostname.
  predicate Reports(s: State, id: AgentId, host: Hostname) {
    id in s.agents && s.agents[id] == host
  }

  // Every agent that reports a hostname is the one indexed under it.
  ghost predicate Indexed(s: State) {
    && "" !in s.byHost
    && forall id :: id in s.agents && s.agents[id] != "" ==>
         s.agents[id] in s.byHost && s.byHost[s.agents[id]] == id
  }

  // And every index entry names an agent that reports that hostname.
  ghost predicate Exact(s: State) {
    Indexed(s) && forall host :: host in s.byHost ==> Reports(s, s.byHost[host], host)
  }

  lemma IndexedStep(s: State, op: Op)
    requires Indexed(s)
    ensures Indexed(Apply(s, op))
  {
  }

  // Every run: a non-empty hostname is reported by at most one registered agent, and GetByHost finds
  // it whenever a search of the list would.
  lemma {:induction false} EveryRun(s: State, ops: seq<Op>)
    requires Indexed(s)
    ensures Indexed(Run(s, ops))
    ensures forall id, host :: host != "" && Reports(Run(s, ops), id, host) ==> Lookup(Run(s, ops), host) == Some(id)
    decreases |ops|
  {
    if ops != [] {
      IndexedStep(s, ops[0]);
      EveryRun(Apply(s, ops[0]), ops[1..]);
    }
  }

  // A registered agent comes back under a different hostname: its old index entry stays behind.
  predicate Renames(s: State, op: Op) {
    op.Register? && op.id != "" && op.id in s.agents && s.agents[op.id] != "" && s.agents[op.id] != op.host
  }

  // From an exact index, a step keeps it exact if and only if it does not rename a registered agent.
  lemma ExactStep(s: State, op: Op)
    requires Exact(s)
    ensures Exact(Apply(s, op)) <==> !Renames(s, op)
  {
    var t := Apply(s, op);
    if Renames(s, op) {
      var stale := s.agents[op.id];
      assert stale in t.byHost && t.byHost[stale] == op.id && t.agents[op.id] == op.host;
    } else {
      IndexedStep(s, op);
    }
  }

  predicate NeverRenames(s: State, ops: seq<Op>)
    decreases |ops|
  {
    ops == [] || (!Renames(s, ops[0]) && NeverRenames(Apply(s, ops[0]), ops[1..]))
  }

  // Without renames the index and the search agree in both directions, for every hostname.
  lemma {:induction false} ExactRun(s: State, ops: seq<Op>)
    requires Exact(s) && NeverRenames(s, ops)
    ensures Exact(Run(s, ops))
    ensures forall id, host :: host != "" ==> (Lookup(Run(s, ops), host) == Some(id) <==> Reports(Run(s, ops), id, host))
    decreases |ops|
  {
    if ops != [] {
      ExactStep(s, ops[0]);
      ExactRun(Apply(s, ops[0]), ops[1..]);
    }
  }

  // Registering an agent: it is there with its hostname and found by it; the agent the index names for
  // that hostname is dropped, and every other agent stays as it was.
  lemma RegisterShows(s: State, id: AgentId, host: Hostname, other: AgentId)
    requires id != "" && other != id
    ensures var t := Apply(s, Register(id, host));
            && Reports(t, id, host) && (host != "" ==> Lookup(t, host) == Some(id))
            && (other in t.agents <==> other in s.agents && !(host in s.byHost && s.byHost[host] == other))
            && (other in t.agents ==> t.agents[other] == s.agents[other])
    ensures Exact(s) && host != "" ==>
              (other in Apply(s, Register(id, host)).agents <==> other in s.agents && !Reports(s, other, host))
  {
  }

  // A stale index entry does harm: an agent that came back under another hostname is dropped when
  // someone else registers under the old one.
  lemma RenamedDropped(a: AgentId, b: AgentId, h: Hostname, k: Hostname)
    requires a != "" && b != "" && a != b && h != "" && k != "" && h != k
    ensures var s := Apply(Apply(State(map[], map[]), Register(a, h)), Register(a, k));
            Reports(s, a, k) && a !in Apply(s, Register(b, h)).agents
  {
  }

  // Unregistering one removes it, and nothing else; afterwards its hostname finds nobody.
  lemma UnregisterShows(s: State, id: AgentId)
    requires Indexed(s)
    ensures var t := Apply(s, Unregister(id));
            && t.agents == s.agents - {id}
            && (id in s.agents && s.agents[id] != "" ==> Lookup(t, s.agents[id]) == None)
  {
  }

  class Registry {
    var agents: map<AgentId, Hostname>
    var byHost: map<Hostname, AgentId>

    ghost function View(): State
      reads this
    {
      State(agents, byHost)
    }

    constructor ()
      ensures View() == State(map[], map[]) && Exact(View())
    {
      agents, byHost := map[], map[];
    }

    method Register(id: AgentId, host: Hostname)
      modifies this
      ensures View() == Apply(old(View()), Op.Register(id, host))
      ensures old(Indexed(View())) ==> Indexed(View())
    {
      IndexedIfBefore(View(), Op.Register(id, host));
      if id == "" {
        return;
      }
      if host in byHost && byHost[host] != id {
        agents := agents - {byHost[host]};
      }
      agents := agents[id := host];
      if host != "" {
        byHost := byHost[host := id];
      }
    }

    method Unregister(id: AgentId)
      modifies this
      ensures View() == Apply(old(View()), Op.Unregister(id))
      ensures old(Indexed(View())) ==> Indexed(View())
    {
      IndexedIfBefore(View(), Op.Unregister(id));
      if id !in agents {
        return;
      }
      var host := agents[id];
      agents := agents - {id};
      if host != "" && host in byHost && byHost[host] == id {
        byHost := byHost - {host};
      }
    }

    method GetByHost(host: Hostname) returns (id: Option<AgentId>)
      requires Indexed(View())
      ensures id == Lookup(View(), host)
      ensures forall a :: host != "" && Reports(View(), a, host) ==> id == Some(a)
    {
      if host !in byHost || byHost[host] !in agents {
        return None;
      }
      id := Some(byHost[host]);
    }

    // List, in whatever order the map is iterated.
    method List() returns (ids: seq<AgentId>)
      ensures multiset(ids) == multiset(agents.Keys)
    {
      var left := agents.Keys;
      ids := [];
      while left != {}
        invariant left <= agents.Keys
        invariant multiset(ids) + multiset(left) == multiset(agents.Keys)
        decreases |left|
      {
        var k :| k in left;
        assert multiset(left) == multiset(left - {k}) + multiset{k};
        ids := ids + [k];
        left := left - {k};
      }
    }
  }

  lemma IndexedIfBefore(s: State, op: Op)
    ensures Indexed(s) ==> Indexed(Apply(s, op))
  {
    if Indexed(s) {
      IndexedStep(s, op);
    }
  }
}
