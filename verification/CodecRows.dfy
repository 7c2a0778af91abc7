/** What the caller of a remote command sees of podman's own data, field by field. */
module CodecRows {
  import opened Common
  import opened Strings
  import opened Codec

  // What the caller gets from a command that is sent under this id.
  function Remote(c: Command, id: RequestId, podman: Call -> Outcome): Result
    requires Meant(c).Some?
  {
    SameCall(c, id);
    var reply := Handled(Enveloped(RequestFor(c, id).value), podman);
    if reply.None? then Error("no reply") else Answer(c, Forwarded(reply.value))
  }

  lemma RemoteDirect(c: Command, id: RequestId, podman: Call -> Outcome)
    requires Meant(c).Some?
    ensures Remote(c, id, podman) == Direct(c, podman(Meant(c).value))
  {
    RemoteIsDirect(c, id, podman);
  }

  // ---------------------------------------------------------------- containers

  // A container of podman's as the caller sees it.  Port numbers are cut to 16 bits.
  predicate SeesContainer(row: Container, c: PodmanContainer) {
    && row.id == c.id && row.image == c.image && row.state == c.state && row.status == c.status && row.labels == c.labels
    && row.manager == "" && row.unit == ""
    && (c.names == [] ==> row.name == "")
    && (c.names != [] && c.names[0] != "" && c.names[0][0] == '/' ==> row.name == c.names[0][1..])
    && (c.names != [] && !(c.names[0] != "" && c.names[0][0] == '/') ==> row.name == c.names[0])
    && |row.ports| == |c.ports|
    && (forall j :: 0 <= j < |c.ports| ==>
          && row.ports[j].hostIp == c.ports[j].hostIp && row.ports[j].protocol == c.ports[j].protocol
          && row.ports[j].host == c.ports[j].host % 65536 && row.ports[j].container == c.ports[j].container % 65536)
    && |row.mounts| == |c.mounts|
    && (forall j :: 0 <= j < |c.mounts| ==>
          && row.mounts[j].kind == c.mounts[j].kind && row.mounts[j].source == c.mounts[j].source
          && row.mounts[j].destination == c.mounts[j].destination && (row.mounts[j].rw <==> !c.mounts[j].readOnly))
  }

  lemma NameOf(name: string)
    ensures TrimPrefix(name, "/") == if name != "" && name[0] == '/' then name[1..] else name
  {
    assert "/" <= name <==> name != "" && name[0] == '/';
  }

  lemma ContainerSeen(c: PodmanContainer)
    ensures SeesContainer(HostRow(ContainerRow(c)), c)
  {
    var row := HostRow(ContainerRow(c));
    if c.names != [] {
      NameOf(c.names[0]);
    }
    forall j | 0 <= j < |c.ports|
      ensures row.ports[j].hostIp == c.ports[j].hostIp && row.ports[j].protocol == c.ports[j].protocol
      ensures row.ports[j].host == c.ports[j].host % 65536 && row.ports[j].container == c.ports[j].container % 65536
    {
      assert row.ports[j] == HostPort(WirePort(c.ports[j]));
      PortWrap(c.ports[j].host);
      PortWrap(c.ports[j].container);
    }
    forall j | 0 <= j < |c.mounts|
      ensures row.mounts[j] == WireMount(c.mounts[j])
    {
    }
  }

  // A unit without a container, as the caller sees it.
  predicate SeesUnit(row: Container, q: Quadlet) {
    && row.id == "quadlet-" + q.name && row.name == (if q.container == "" then q.name else q.container)
    && row.image == q.image && row.state == "exited" && row.status == "Stopped (Quadlet)"
    && row.manager == "quadlet" && row.unit == q.unit
    && row.labels == map[] && row.ports == [] && row.mounts == []
  }

  // A unit is shown when it is not active and no container podman lists bears its container name.
  predicate Idle(q: Quadlet, rows: seq<Container>) {
    q.state != "active" && (q.container == "" || forall i :: 0 <= i < |rows| ==> rows[i].name != q.container)
  }

  // The rows are those of the units at these positions, which are exactly the ones to show, in order.
  ghost predicate SeesUnits(rows: seq<Container>, quadlets: seq<Quadlet>, containers: seq<Container>, at: seq<nat>) {
    && |rows| == |at|
    && (forall j :: 0 <= j < |at| ==> at[j] < |quadlets| && Idle(quadlets[at[j]], containers) && SeesUnit(rows[j], quadlets[at[j]]))
    && (forall i, j :: 0 <= i < j < |at| ==> at[i] < at[j])
    && (forall q :: 0 <= q < |quadlets| && Idle(quadlets[q], containers) ==> q in at)
  }

  lemma UnitRow(q: Quadlet)
    ensures SeesUnit(HostRow(QuadletRow(q)), q)
  {
    assert Mapped(HostPort, []) == [];
  }

  lemma ShownIdle(q: Quadlet, rows: seq<Container>)
    ensures Shown(q, rows) <==> Idle(q, rows)
  {
  }

  lemma {:induction false} UnitsSeen(quadlets: seq<Quadlet>, rows: seq<Container>) returns (at: seq<nat>)
    ensures SeesUnits(Mapped(HostRow, QuadletRows(quadlets, rows)), quadlets, rows, at)
  {
    at := [];
    if quadlets != [] {
      var n := |quadlets| - 1;
      at := UnitsSeen(quadlets[..n], rows);
      ShownIdle(quadlets[n], rows);
      var before := Mapped(HostRow, QuadletRows(quadlets[..n], rows));
      if Shown(quadlets[n], rows) {
        UnitRow(quadlets[n]);
        assert Mapped(HostRow, QuadletRows(quadlets, rows)) == before + [HostRow(QuadletRow(quadlets[n]))];
        assert forall q :: 0 <= q < n ==> quadlets[..n][q] == quadlets[q];
        at := at + [n];
      } else {
        assert Mapped(HostRow, QuadletRows(quadlets, rows)) == before;
        assert forall q :: 0 <= q < n ==> quadlets[..n][q] == quadlets[q];
      }
    }
  }

  // The whole way: every container of podman's, in order, then the units to show, in order.
  lemma SeesContainers(id: RequestId, podman: Call -> Outcome) returns (at: seq<nat>)
    requires podman(CallListContainers(true)).error.None?
    ensures var o := podman(CallListContainers(true));
            var r := Remote(ListContainers, id, podman);
            && r.Containers? && |o.containers| <= |r.containers|
            && (forall i :: 0 <= i < |o.containers| ==> SeesContainer(r.containers[i], o.containers[i]))
            && (o.quadlets.None? ==> |r.containers| == |o.containers|)
            && (o.quadlets.Some? ==>
                  SeesUnits(r.containers[|o.containers|..], o.quadlets.value, r.containers[..|o.containers|], at))
  {
    RemoteDirect(ListContainers, id, podman);
    var o := podman(CallListContainers(true));
    var rows := Mapped(ContainerRow, o.containers);
    var seen := Mapped(HostRow, Listed(o));
    forall i | 0 <= i < |o.containers|
      ensures SeesContainer(seen[i], o.containers[i])
    {
      assert seen[i] == HostRow(ContainerRow(o.containers[i]));
      ContainerSeen(o.containers[i]);
    }
    at := [];
    if o.quadlets.Some? {
      at := UnitsSeen(o.quadlets.value, rows);
      var units := QuadletRows(o.quadlets.value, rows);
      assert Listed(o) == rows + units;
      assert seen[|o.containers|..] == Mapped(HostRow, units);
      SameNames(o.quadlets.value, rows, seen[..|o.containers|], Mapped(HostRow, units), at);
    }
  }

  lemma SameNames(quadlets: seq<Quadlet>, rows: seq<Container>, seen: seq<Container>, units: seq<Container>, at: seq<nat>)
    requires |rows| == |seen| && (forall i :: 0 <= i < |rows| ==> seen[i].name == rows[i].name)
    requires SeesUnits(units, quadlets, rows, at)
    ensures SeesUnits(units, quadlets, seen, at)
  {
    forall q | 0 <= q < |quadlets|
      ensures Idle(quadlets[q], rows) <==> Idle(quadlets[q], seen)
    {
      if Idle(quadlets[q], seen) && quadlets[q].container != "" {
        forall i | 0 <= i < |rows|
          ensures rows[i].name != quadlets[q].container
        {
          assert seen[i].name != quadlets[q].container;
        }
      }
    }
  }

  // ---------------------------------------------------------------- volumes and networks

  lemma SeesVolumes(id: RequestId, podman: Call -> Outcome)
    requires podman(CallListVolumes).error.None?
    ensures var o := podman(CallListVolumes);
            var r := Remote(ListVolumes, id, podman);
            && r.Volumes? && |r.volumes| == |o.volumes|
            && forall i :: 0 <= i < |o.volumes| ==>
                 && r.volumes[i].name == o.volumes[i].name && r.volumes[i].driver == o.volumes[i].driver
                 && r.volumes[i].mountpoint == o.volumes[i].mountpoint && r.volumes[i].labels == o.volumes[i].labels
  {
    RemoteDirect(ListVolumes, id, podman);
    var o := podman(CallListVolumes);
    forall i | 0 <= i < |o.volumes|
      ensures Mapped(VolumeRow, o.volumes)[i] == VolumeRow(o.volumes[i])
    {
    }
  }

  lemma SeesNetworks(id: RequestId, podman: Call -> Outcome)
    requires podman(CallListNetworks).error.None?
    ensures var o := podman(CallListNetworks);
            var r := Remote(ListNetworks, id, podman);
            && r.Networks? && |r.networks| == |o.networks|
            && forall i :: 0 <= i < |o.networks| ==>
                 && r.networks[i].name == o.networks[i].name && r.networks[i].driver == o.networks[i].driver
                 && r.networks[i].gateway == o.networks[i].gateway && r.networks[i].ipv6 == o.networks[i].ipv6
                 && r.networks[i].labels == o.networks[i].labels
                 && (o.networks[i].subnet == "" ==> r.networks[i].subnets == [])
                 && (o.networks[i].subnet != "" ==> r.networks[i].subnets == [o.networks[i].subnet])
  {
    RemoteDirect(ListNetworks, id, podman);
    var o := podman(CallListNetworks);
    forall i | 0 <= i < |o.networks|
      ensures Mapped(NetworkRow, o.networks)[i] == NetworkRow(o.networks[i])
    {
    }
  }

  // ---------------------------------------------------------------- commands with arguments

  // A volume is created as asked, and the caller is told what it asked for.
  lemma CreatesVolume(v: VolumeSpec, id: RequestId, podman: Call -> Outcome)
    ensures var call := Meant(CreateVolume(Some(v)));
            && call.Some? && call.value.CallCreateVolume?
            && call.value.volume.name == v.name && call.value.volume.driver == v.driver
            && call.value.volume.labels == v.labels && call.value.volume.options == v.options
    ensures var o := podman(Meant(CreateVolume(Some(v))).value);
            var r := Remote(CreateVolume(Some(v)), id, podman);
            if o.error.Some? then r == Error(o.error.value)
            else r.MadeVolume? && r.volume.name == v.name && r.volume.driver == v.driver
                 && r.volume.labels == v.labels && r.volume.options == v.options
  {
    RemoteDirect(CreateVolume(Some(v)), id, podman);
  }

  // The podman call for a network has the first subnet; the caller is told what it asked for.
  lemma CreatesNetwork(n: NetworkRequest, id: RequestId, podman: Call -> Outcome)
    ensures var call := Meant(CreateNetwork(Some(n)));
            && call.Some? && call.value.CallCreateNetwork?
            && call.value.network.name == n.name && call.value.network.driver == n.driver
            && call.value.network.subnet == (if n.subnets == [] then "" else n.subnets[0])
            && call.value.network.gateway == n.gateway && call.value.network.ipv6 == n.ipv6
            && call.value.network.labels == n.labels && call.value.network.options == n.options
    ensures var o := podman(Meant(CreateNetwork(Some(n))).value);
            var r := Remote(CreateNetwork(Some(n)), id, podman);
            if o.error.Some? then r == Error(o.error.value)
            else r.MadeNetwork? && r.network.name == n.name && r.network.driver == n.driver && r.network.subnets == n.subnets
                 && r.network.gateway == n.gateway && r.network.ipv6 == n.ipv6 && r.network.isolated == n.isolated
                 && r.network.dns == n.dns && r.network.labels == n.labels && r.network.options == n.options
  {
    RemoteDirect(CreateNetwork(Some(n)), id, podman);
  }

  // The remaining commands: which call each makes, and what its caller is told.
  lemma Calls(name: string, other: string, force: bool)
    ensures Meant(RemoveVolume(name, force)) == Some(CallRemoveVolume(name, force))
    ensures Meant(RemoveNetwork(name)) == Some(CallRemoveNetwork(name))
    ensures Meant(ConnectNetwork(name, other)) == Some(CallConnectNetwork(name, other))
    ensures Meant(DisconnectNetwork(name, other)) == Some(CallDisconnectNetwork(name, other, true))
    ensures Meant(ListContainers) == Some(CallListContainers(true))
  {
  }

  lemma Acts(c: Command, id: RequestId, podman: Call -> Outcome)
    requires c.RemoveVolume? || c.RemoveNetwork? || c.ConnectNetwork? || c.DisconnectNetwork?
    ensures var o := podman(Meant(c).value);
            Remote(c, id, podman) == if o.error.Some? then Error(o.error.value) else Fine
  {
    RemoteDirect(c, id, podman);
  }

  // Pruning tells the caller how many podman deleted.
  lemma Prunes(c: Command, id: RequestId, podman: Call -> Outcome)
    requires c.PruneVolumes? || c.PruneNetworks?
    ensures var o := podman(if c.PruneVolumes? then CallPruneVolumes else CallPruneNetworks);
            Remote(c, id, podman) ==
              if o.error.Some? then Error(o.error.value)
              else Removed(if o.deleted.Some? then |o.deleted.value| else 0)
  {
    RemoteDirect(c, id, podman);
  }

  // A listing that fails says so.
  lemma ListingFails(c: Command, id: RequestId, podman: Call -> Outcome)
    requires c.ListContainers? || c.ListVolumes? || c.ListNetworks?
    requires podman(Meant(c).value).error.Some?
    ensures var what := if c.ListContainers? then "container list" else if c.ListVolumes? then "volume list" else "network list";
            Remote(c, id, podman) == Error(what + " failed: " + podman(Meant(c).value).error.value)
  {
    RemoteDirect(c, id, podman);
  }
}
