/** Commands to an agent and back: running one remotely means the same as running it in place. */
module Codec {
  import opened Common
  import opened Strings

  type RequestId = string

  // ---------------------------------------------------------------- entities on the three sides

  datatype VolumeSpec = VolumeSpec(name: string, driver: string, labels: map<string, string>, options: map<string, string>)

  // A network as the manager's caller asks for it, and as it goes over the wire and to podman.
  datatype NetworkRequest = NetworkRequest(
    name: string, driver: string, subnets: seq<string>, gateway: string, ipv6: bool, isolated: bool, dns: bool,
    labels: map<string, string>, options: map<string, string>)
  datatype NetworkSpec = NetworkSpec(
    name: string, driver: string, subnet: string, gateway: string, ipv6: bool,
    labels: map<string, string>, options: map<string, string>)

  datatype Port = Port(hostIp: string, host: int, container: int, protocol: string)
  datatype PodmanMount = PodmanMount(kind: string, source: string, destination: string, readOnly: bool)
  datatype Mount = Mount(kind: string, source: string, destination: string, rw: bool)

  datatype PodmanContainer = PodmanContainer(
    id: string, names: seq<string>, image: string, state: string, status: string, labels: map<string, string>,
    ports: seq<Port>, mounts: seq<PodmanMount>)
  datatype Quadlet = Quadlet(name: string, container: string, image: string, unit: string, state: string)
  datatype Container = Container(
    id: string, name: string, image: string, state: string, status: string, labels: map<string, string>,
    ports: seq<Port>, mounts: seq<Mount>, manager: string, unit: string)

  datatype PodmanVolume = PodmanVolume(name: string, driver: string, mountpoint: string, labels: map<string, string>, options: map<string, string>)
  datatype Volume = Volume(name: string, driver: string, mountpoint: string, labels: map<string, string>, options: map<string, string>)

  datatype PodmanNetwork = PodmanNetwork(name: string, driver: string, subnet: string, gateway: string, ipv6: bool, labels: map<string, string>)
  datatype Network = Network(
    name: string, driver: string, subnets: seq<string>, gateway: string, ipv6: bool, isolated: bool, dns: bool,
    labels: map<string, string>, options: map<string, string>)

  // ---------------------------------------------------------------- messages

  // What a method of the transport is asked to do; a create without a request is refused at once.
  datatype Command =
    | ListContainers
    | ListVolumes
    | CreateVolume(volume: Option<VolumeSpec>)
    | RemoveVolume(name: string, force: bool)
    | PruneVolumes
    | ListNetworks
    | CreateNetwork(network: Option<NetworkRequest>)
    | RemoveNetwork(name: string)
    | PruneNetworks
    | ConnectNetwork(name: string, container: string)
    | DisconnectNetwork(name: string, container: string)

  datatype Request =
    | ContainerListRequest(id: RequestId, all: bool)
    | VolumeListRequest(id: RequestId)
    | VolumeCreateRequest(id: RequestId, volume: VolumeSpec)
    | VolumeRemoveRequest(id: RequestId, name: string, force: bool)
    | VolumePruneRequest(id: RequestId)
    | NetworkListRequest(id: RequestId)
    | NetworkCreateRequest(id: RequestId, network: NetworkSpec)
    | NetworkRemoveRequest(id: RequestId, name: string)
    | NetworkPruneRequest(id: RequestId)
    | NetworkConnectRequest(id: RequestId, name: string, container: string)
    | NetworkDisconnectRequest(id: RequestId, name: string, container: string, force: bool)
    | HostInfoRequest(id: RequestId)

  // The free-text field of an envelope: plain text, or the JSON of a request, which decodes to it.
  datatype Details = Text(text: string) | VolumeJson(volume: VolumeSpec) | NetworkJson(network: NetworkSpec)

  datatype Envelope = Envelope(id: RequestId, code: string, message: string, details: Details)

  datatype Call =
    | CallListContainers(all: bool)
    | CallListVolumes
    | CallCreateVolume(volume: VolumeSpec)
    | CallRemoveVolume(name: string, force: bool)
    | CallPruneVolumes
    | CallListNetworks
    | CallCreateNetwork(network: NetworkSpec)
    | CallRemoveNetwork(name: string)
    | CallPruneNetworks
    | CallConnectNetwork(name: string, container: string)
    | CallDisconnectNetwork(name: string, container: string, force: bool)

  // What podman does with a call: an error or not, and whatever it returned; `quadlets` is None when
  // looking for them failed.
  datatype Outcome = Outcome(
    error: Option<string>, containers: seq<PodmanContainer>, quadlets: Option<seq<Quadlet>>,
    volumes: seq<PodmanVolume>, networks: seq<PodmanNetwork>, deleted: Option<seq<string>>)

  datatype ActionResult = ActionResult(success: bool, message: string, error: string)

  datatype Reply =
    | ContainerListResponse(id: RequestId, containers: seq<Container>)
    | VolumeListResponse(id: RequestId, volumes: seq<Volume>)
    | VolumeActionResponse(id: RequestId, name: string, result: Option<ActionResult>)
    | VolumePruneResponse(id: RequestId, deleted: seq<string>, result: Option<ActionResult>)
    | NetworkListResponse(id: RequestId, networks: seq<PodmanNetwork>)
    | NetworkActionResponse(id: RequestId, name: string, container: string, result: Option<ActionResult>)
    | NetworkPruneResponse(id: RequestId, deleted: seq<string>, result: Option<ActionResult>)
    | ErrorResponse(id: RequestId, code: string, message: string)
    | HostInfoResponse(id: RequestId)

  // What the caller of a transport method gets.
  datatype Result =
    | Containers(containers: seq<Container>)
    | Volumes(volumes: seq<Volume>)
    | Networks(networks: seq<Network>)
    | MadeVolume(volume: Volume)
    | MadeNetwork(network: Network)
    | Removed(count: nat)
    | Fine
    | Error(text: string)

  function Mapped<T, U>(f: T -> U, s: seq<T>): seq<U> {
    seq(|s|, i requires 0 <= i < |s| => f(s[i]))
  }

  // ---------------------------------------------------------------- transport: the request

  function WireNetwork(r: NetworkRequest): NetworkSpec {
    NetworkSpec(r.name, r.driver, if |r.subnets| > 0 then r.subnets[0] else "", r.gateway, r.ipv6, r.labels, r.options)
  }

  // None: refused without sending anything.
  function RequestFor(c: Command, id: RequestId): Option<Request> {
    match c
    case ListContainers => Some(ContainerListRequest(id, true))
    case ListVolumes => Some(VolumeListRequest(id))
    case CreateVolume(volume) => if volume.None? then None else Some(VolumeCreateRequest(id, volume.value))
    case RemoveVolume(name, force) => Some(VolumeRemoveRequest(id, name, force))
    case PruneVolumes => Some(VolumePruneRequest(id))
    case ListNetworks => Some(NetworkListRequest(id))
    case CreateNetwork(network) => if network.None? then None else Some(NetworkCreateRequest(id, WireNetwork(network.value)))
    case RemoveNetwork(name) => Some(NetworkRemoveRequest(id, name))
    case PruneNetworks => Some(NetworkPruneRequest(id))
    case ConnectNetwork(name, container) => Some(NetworkConnectRequest(id, name, container))
    case DisconnectNetwork(name, container) => Some(NetworkDisconnectRequest(id, name, container, true))
  }

  // ---------------------------------------------------------------- manager: the envelope

  function FormatBool(b: bool): string {
    if b then "true" else "false"
  }

  function Enveloped(r: Request): Envelope {
    var plain := (code, message, details) => Envelope(r.id, code, message, Text(details));
    match r
    case ContainerListRequest(_, all) => plain("container_list", "", FormatBool(all))
    case VolumeListRequest(_) => plain("volume_list", "", "")
    case VolumeCreateRequest(id, v) => Envelope(id, "volume_create", v.name, VolumeJson(v))
    case VolumeRemoveRequest(_, name, force) => plain("volume_remove", name, FormatBool(force))
    case VolumePruneRequest(_) => plain("volume_prune", "", "")
    case NetworkListRequest(_) => plain("network_list", "", "")
    case NetworkCreateRequest(id, n) => Envelope(id, "network_create", n.name, NetworkJson(n))
    case NetworkRemoveRequest(_, name) => plain("network_remove", name, "")
    case NetworkPruneRequest(_) => plain("network_prune", "", "")
    case NetworkConnectRequest(_, name, container) => plain("network_connect", name, container)
    case NetworkDisconnectRequest(_, name, container, _) => plain("network_disconnect", name, container)
    case HostInfoRequest(id) => plain("command", id, "")
  }

  // ---------------------------------------------------------------- agent: the podman call

  // strconv.ParseBool with its error ignored.
  predicate ParseBool(s: string) {
    s in {"1", "t", "T", "TRUE", "true", "True"}
  }

  function DetailText(d: Details): string {
    if d.Text? then d.text else ""
  }

  // What the agent asks podman for; None when the JSON does not decode or the code is unknown.
  function CallFor(e: Envelope): Option<Call> {
    if e.code == "container_list" then Some(CallListContainers(ParseBool(DetailText(e.details))))
    else if e.code == "volume_list" then Some(CallListVolumes)
    else if e.code == "volume_create" then if e.details.VolumeJson? then Some(CallCreateVolume(e.details.volume)) else None
    else if e.code == "volume_remove" then Some(CallRemoveVolume(e.message, ParseBool(DetailText(e.details))))
    else if e.code == "volume_prune" then Some(CallPruneVolumes)
    else if e.code == "network_list" then Some(CallListNetworks)
    else if e.code == "network_create" then if e.details.NetworkJson? then Some(CallCreateNetwork(e.details.network)) else None
    else if e.code == "network_remove" then Some(CallRemoveNetwork(e.message))
    else if e.code == "network_prune" then Some(CallPruneNetworks)
    else if e.code == "network_connect" then Some(CallConnectNetwork(e.message, DetailText(e.details)))
    else if e.code == "network_disconnect" then Some(CallDisconnectNetwork(e.message, DetailText(e.details), true))
    else None
  }

  // ---------------------------------------------------------------- agent: the reply

  function Acted(o: Outcome, message: string): Option<ActionResult> {
    Some(if o.error.Some? then ActionResult(false, "", o.error.value) else ActionResult(true, message, ""))
  }

  function Deleted(o: Outcome): seq<string> {
    if o.deleted.Some? then o.deleted.value else []
  }

  // Conversions to 32-bit signed and 16-bit unsigned numbers.
  function Int32(x: int): int {
    (x + 0x8000_0000) % 0x1_0000_0000 - 0x8000_0000
  }

  function Uint16(x: int): int {
    x % 0x1_0000
  }

  function WirePort(p: Port): Port {
    p.(host := Int32(p.host), container := Int32(p.container))
  }

  function WireMount(m: PodmanMount): Mount {
    Mount(m.kind, m.source, m.destination, !m.readOnly)
  }

  function ContainerRow(c: PodmanContainer): Container {
    Container(c.id, if c.names == [] then "" else TrimPrefix(c.names[0], "/"), c.image, c.state, c.status, c.labels,
              Mapped(WirePort, c.ports), Mapped(WireMount, c.mounts), "", "")
  }

  function QuadletRow(q: Quadlet): Container {
    Container("quadlet-" + q.name, if q.container == "" then q.name else q.container, q.image, "exited", "Stopped (Quadlet)",
              map[], [], [], "quadlet", q.unit)
  }

  // Whether a quadlet unit is shown: it is not active, and no listed container has its name.
  predicate Shown(q: Quadlet, rows: seq<Container>) {
    q.state != "active" && !(q.container != "" && exists i :: 0 <= i < |rows| && rows[i].name == q.container)
  }

  function QuadletRows(quadlets: seq<Quadlet>, rows: seq<Container>): seq<Container> {
    if quadlets == [] then []
    else
      var q := quadlets[|quadlets| - 1];
      QuadletRows(quadlets[..|quadlets| - 1], rows) + if Shown(q, rows) then [QuadletRow(q)] else []
  }

  function Listed(o: Outcome): seq<Container> {
    var rows := Mapped(ContainerRow, o.containers);
    rows + if o.quadlets.None? then [] else QuadletRows(o.quadlets.value, rows)
  }

  function VolumeRow(v: PodmanVolume): Volume {
    Volume(v.name, v.driver, v.mountpoint, v.labels, map[])
  }

  // The names a list of rows shows.
  ghost predicate Names(seen: set<string>, rows: seq<Container>) {
    forall name :: name in seen <==> name != "" && exists k :: 0 <= k < |rows| && rows[k].name == name
  }

  method ListRows(containers: seq<PodmanContainer>) returns (rows: seq<Container>, seen: set<string>)
    ensures rows == Mapped(ContainerRow, containers) && Names(seen, rows)
  {
    rows, seen := [], {};
    var i := 0;
    while i < |containers|
      invariant 0 <= i <= |containers| && |rows| == i
      invariant forall k :: 0 <= k < i ==> rows[k] == ContainerRow(containers[k])
      invariant Names(seen, rows)
    {
      var row := ContainerRow(containers[i]);
      MoreNames(seen, rows, row);
      if row.name != "" {
        seen := seen + {row.name};
      }
      rows := rows + [row];
      i := i + 1;
    }
  }

  lemma MoreNames(seen: set<string>, rows: seq<Container>, row: Container)
    requires Names(seen, rows)
    ensures Names(if row.name != "" then seen + {row.name} else seen, rows + [row])
  {
    var after, more := if row.name != "" then seen + {row.name} else seen, rows + [row];
    forall name
      ensures name in after <==> name != "" && exists k :: 0 <= k < |more| && more[k].name == name
    {
      if name in seen {
        var k :| 0 <= k < |rows| && rows[k].name == name;
        assert more[k].name == name;
      }
      assert more[|rows|] == row;
    }
  }

  // The agent's listContainers: podman's containers, noting their names, then the inactive units.
  method ListAll(o: Outcome) returns (rows: seq<Container>)
    ensures rows == Listed(o)
  {
    var found, seen := ListRows(o.containers);
    rows := found;
    if o.quadlets.None? {
      return;
    }
    var quadlets := o.quadlets.value;
    var i := 0;
    while i < |quadlets|
      invariant 0 <= i <= |quadlets|
      invariant rows == found + QuadletRows(quadlets[..i], found)
    {
      assert quadlets[..i + 1][..i] == quadlets[..i];
      var q := quadlets[i];
      if !(q.state == "active" || q.container in seen) {
        rows := rows + [QuadletRow(q)];
      }
      i := i + 1;
    }
    assert quadlets[..i] == quadlets;
  }

  function Replied(e: Envelope, o: Outcome): Reply {
    var failed := o.error.Some?;
    var error := ErrorResponse(e.id, "agent_error", if failed then o.error.value else "");
    if e.code == "container_list" then if failed then error else ContainerListResponse(e.id, Listed(o))
    else if e.code == "volume_list" then if failed then error else VolumeListResponse(e.id, Mapped(VolumeRow, o.volumes))
    else if e.code == "volume_create" then
      if e.details.VolumeJson? then VolumeActionResponse(e.id, e.details.volume.name, Acted(o, "volume created"))
      else ErrorResponse(e.id, "agent_error", "invalid JSON")
    else if e.code == "volume_remove" then VolumeActionResponse(e.id, e.message, Acted(o, "volume removed"))
    else if e.code == "volume_prune" then VolumePruneResponse(e.id, Deleted(o), Acted(o, "volumes pruned"))
    else if e.code == "network_list" then if failed then error else NetworkListResponse(e.id, o.networks)
    else if e.code == "network_create" then
      if e.details.NetworkJson? then NetworkActionResponse(e.id, e.details.network.name, "", Acted(o, "network created"))
      else ErrorResponse(e.id, "agent_error", "invalid JSON")
    else if e.code == "network_remove" then NetworkActionResponse(e.id, e.message, "", Acted(o, "network removed"))
    else if e.code == "network_prune" then NetworkPruneResponse(e.id, Deleted(o), Acted(o, "networks pruned"))
    else
      NetworkActionResponse(e.id, e.message, DetailText(e.details),
        Acted(o, if e.code == "network_connect" then "network connected" else "network disconnected"))
  }

  // handleStreamCommand: the call made and the reply sent, or nothing for an unknown code.
  function Handled(e: Envelope, podman: Call -> Outcome): Option<Reply> {
    var call := CallFor(e);
    if call.Some? then Some(Replied(e, podman(call.value)))
    else if e.code == "volume_create" || e.code == "network_create" then Some(ErrorResponse(e.id, "agent_error", "invalid JSON"))
    else None
  }

  // ---------------------------------------------------------------- manager: the answer

  // managerMessageFromAgentMessage: a kind it does not know becomes an error.
  function Forwarded(r: Reply): Reply {
    if r.HostInfoResponse? then ErrorResponse("", "unsupported_response", r.id) else r
  }

  function ResponseError(r: Reply, operation: string): Result {
    Error(if r.ErrorResponse? then operation + " failed: " + r.message else operation + " failed: unexpected response")
  }

  predicate Bad(result: Option<ActionResult>) {
    result.Some? && !result.value.success
  }

  function ResultError(result: ActionResult): Result {
    Error(if result.error != "" then result.error else result.message)
  }

  // Any kind of action response will do here.
  function ActionAnswer(r: Reply, operation: string): Result {
    if r.VolumeActionResponse? || r.NetworkActionResponse? then
      if Bad(r.result) then ResultError(r.result.value) else Fine
    else ResponseError(r, operation)
  }

  function HostPort(p: Port): Port {
    p.(host := Uint16(p.host), container := Uint16(p.container))
  }

  function HostRow(c: Container): Container {
    c.(ports := Mapped(HostPort, c.ports))
  }

  function NetworkRow(n: PodmanNetwork): Network {
    Network(n.name, n.driver, if n.subnet == "" then [] else [n.subnet], n.gateway, n.ipv6, false, false, n.labels, map[])
  }

  function Answer(c: Command, r: Reply): Result {
    match c
    case ListContainers => if r.ContainerListResponse? then Containers(Mapped(HostRow, r.containers)) else ResponseError(r, "container list")
    case ListVolumes => if r.VolumeListResponse? then Volumes(r.volumes) else ResponseError(r, "volume list")
    case CreateVolume(volume) =>
      if volume.None? then Error("volume create request is required")
      else if !r.VolumeActionResponse? then ResponseError(r, "volume create")
      else if Bad(r.result) then ResultError(r.result.value)
      else
        var v := volume.value;
        MadeVolume(Volume(if r.name == "" then v.name else r.name, v.driver, "", v.labels, v.options))
    case RemoveVolume(_, _) => ActionAnswer(r, "volume remove")
    case PruneVolumes =>
      if !r.VolumePruneResponse? then ResponseError(r, "volume prune")
      else if Bad(r.result) then ResultError(r.result.value) else Removed(|r.deleted|)
    case ListNetworks => if r.NetworkListResponse? then Networks(Mapped(NetworkRow, r.networks)) else ResponseError(r, "network list")
    case CreateNetwork(network) =>
      if network.None? then Error("network create request is required")
      else if !r.NetworkActionResponse? then ResponseError(r, "network create")
      else if Bad(r.result) then ResultError(r.result.value)
      else
        var n := network.value;
        MadeNetwork(Network(if r.name == "" then n.name else r.name, n.driver, n.subnets, n.gateway, n.ipv6, n.isolated, n.dns, n.labels, n.options))
    case RemoveNetwork(_) => ActionAnswer(r, "network remove")
    case PruneNetworks =>
      if !r.NetworkPruneResponse? then ResponseError(r, "network prune")
      else if Bad(r.result) then ResultError(r.result.value) else Removed(|r.deleted|)
    case ConnectNetwork(_, _) => ActionAnswer(r, "network connect")
    case DisconnectNetwork(_, _) => ActionAnswer(r, "network disconnect")
  }

  // ---------------------------------------------------------------- running a command in place

  // The podman call a command stands for.
  function Meant(c: Command): Option<Call> {
    match c
    case ListContainers => Some(CallListContainers(true))
    case ListVolumes => Some(CallListVolumes)
    case CreateVolume(volume) => if volume.None? then None else Some(CallCreateVolume(volume.value))
    case RemoveVolume(name, force) => Some(CallRemoveVolume(name, force))
    case PruneVolumes => Some(CallPruneVolumes)
    case ListNetworks => Some(CallListNetworks)
    case CreateNetwork(network) => if network.None? then None else Some(CallCreateNetwork(WireNetwork(network.value)))
    case RemoveNetwork(name) => Some(CallRemoveNetwork(name))
    case PruneNetworks => Some(CallPruneNetworks)
    case ConnectNetwork(name, container) => Some(CallConnectNetwork(name, container))
    case DisconnectNetwork(name, container) => Some(CallDisconnectNetwork(name, container, true))
  }

  // What an operation is called in the errors of the listing methods.
  function Named(c: Command): string {
    if c.ListContainers? then "container list" else if c.ListVolumes? then "volume list" else "network list"
  }

  // And what its caller should get from podman's outcome.
  function Direct(c: Command, o: Outcome): Result {
    if o.error.Some? then
      Error(if c.ListContainers? || c.ListVolumes? || c.ListNetworks? then Named(c) + " failed: " + o.error.value else o.error.value)
    else
      match c
      case ListContainers => Containers(Mapped(HostRow, Listed(o)))
      case ListVolumes => Volumes(Mapped(VolumeRow, o.volumes))
      case CreateVolume(volume) =>
        if volume.None? then Error("volume create request is required")
        else MadeVolume(Volume(volume.value.name, volume.value.driver, "", volume.value.labels, volume.value.options))
      case PruneVolumes => Removed(|Deleted(o)|)
      case ListNetworks => Networks(Mapped(NetworkRow, o.networks))
      case CreateNetwork(network) =>
        if network.None? then Error("network create request is required")
        else
          var n := network.value;
          MadeNetwork(Network(n.name, n.driver, n.subnets, n.gateway, n.ipv6, n.isolated, n.dns, n.labels, n.options))
      case PruneNetworks => Removed(|Deleted(o)|)
      case _ => Fine
  }

  // ---------------------------------------------------------------- the whole path

  lemma BoolRoundTrip(b: bool)
    ensures ParseBool(FormatBool(b)) == b
  {
    assert FormatBool(false) !in {"1", "t", "T", "TRUE", "true", "True"} by {
      assert |"false"| == 5 && |"TRUE"| == 4 && |"true"| == 4 && |"True"| == 4;
    }
  }

  // The agent makes exactly the call the command stands for.
  lemma SameCall(c: Command, id: RequestId)
    ensures RequestFor(c, id).Some? <==> Meant(c).Some?
    ensures RequestFor(c, id).Some? ==>
              Enveloped(RequestFor(c, id).value).id == id && CallFor(Enveloped(RequestFor(c, id).value)) == Meant(c)
  {
    if c.RemoveVolume? {
      BoolRoundTrip(c.force);
    } else if c.ListContainers? {
      BoolRoundTrip(true);
    }
  }

  predicate Succeeds(r: Result) {
    !r.Error?
  }

  // Every command: the reply carries the command's own request id and survives forwarding, and what
  // the caller gets is what running the command in place gives; in particular it sees success exactly
  // when the podman call succeeded.
  lemma RemoteIsDirect(c: Command, id: RequestId, podman: Call -> Outcome)
    requires Meant(c).Some?
    ensures RequestFor(c, id).Some?
    ensures var reply := Handled(Enveloped(RequestFor(c, id).value), podman);
            && reply.Some? && reply.value.id == id && Forwarded(reply.value) == reply.value
            && Answer(c, reply.value) == Direct(c, podman(Meant(c).value))
            && (Succeeds(Answer(c, reply.value)) <==> podman(Meant(c).value).error.None?)
  {
    SameCall(c, id);
    var e, o := Enveloped(RequestFor(c, id).value), podman(Meant(c).value);
    AnswerOf(c, id, o);
  }

  lemma AnswerOf(c: Command, id: RequestId, o: Outcome)
    requires Meant(c).Some? && RequestFor(c, id).Some?
    ensures var r := Replied(Enveloped(RequestFor(c, id).value), o);
            r.id == id && Forwarded(r) == r && Answer(c, r) == Direct(c, o)
  {
    if c.ListContainers? || c.ListVolumes? || c.ListNetworks? {
      ListAnswer(c, id, o);
    } else if c.CreateVolume? || c.RemoveVolume? || c.PruneVolumes? {
      VolumeAnswer(c, id, o);
    } else if c.CreateNetwork? {
      CreateNetworkAnswer(c, id, o);
    } else if c.RemoveNetwork? || c.PruneNetworks? {
      NetworkAnswer(c, id, o);
    } else {
      ConnectAnswer(c, id, o);
    }
  }

  lemma ListAnswer(c: Command, id: RequestId, o: Outcome)
    requires c.ListContainers? || c.ListVolumes? || c.ListNetworks?
    ensures var r := Replied(Enveloped(RequestFor(c, id).value), o);
            r.id == id && Forwarded(r) == r && Answer(c, r) == Direct(c, o)
  {
  }

  lemma VolumeAnswer(c: Command, id: RequestId, o: Outcome)
    requires c.CreateVolume? || c.RemoveVolume? || c.PruneVolumes?
    requires Meant(c).Some? && RequestFor(c, id).Some?
    ensures var r := Replied(Enveloped(RequestFor(c, id).value), o);
            r.id == id && Forwarded(r) == r && Answer(c, r) == Direct(c, o)
  {
  }

  lemma CreateNetworkAnswer(c: Command, id: RequestId, o: Outcome)
    requires c.CreateNetwork? && c.network.Some?
    ensures var r := Replied(Enveloped(RequestFor(c, id).value), o);
            r.id == id && Forwarded(r) == r && Answer(c, r) == Direct(c, o)
  {
  }

  lemma NetworkAnswer(c: Command, id: RequestId, o: Outcome)
    requires c.RemoveNetwork? || c.PruneNetworks?
    ensures var r := Replied(Enveloped(RequestFor(c, id).value), o);
            r.id == id && Forwarded(r) == r && Answer(c, r) == Direct(c, o)
  {
  }

  lemma ConnectAnswer(c: Command, id: RequestId, o: Outcome)
    requires c.ConnectNetwork? || c.DisconnectNetwork?
    ensures var r := Replied(Enveloped(RequestFor(c, id).value), o);
            r.id == id && Forwarded(r) == r && Answer(c, r) == Direct(c, o)
  {
  }

  // What is asked of podman says everything the caller asked for exactly when the request has no
  // second subnet, no blank one, and neither the internal nor the DNS flag: those never reach it.
  function Asked(n: NetworkRequest): NetworkRequest {
    var w := WireNetwork(n);
    NetworkRequest(w.name, w.driver, if w.subnet == "" then [] else [w.subnet], w.gateway, w.ipv6, false, false, w.labels, w.options)
  }

  lemma NetworkFaithful(n: NetworkRequest)
    ensures Asked(n) == n <==>
              (n.subnets == [] || (|n.subnets| == 1 && n.subnets[0] != "")) && !n.isolated && !n.dns
  {
    if |n.subnets| == 1 {
      assert n.subnets == [n.subnets[0]];
    }
  }

  // A port survives the two conversions on its way if and only if it is a 16-bit number.
  predicate PortNumber(x: int) {
    0 <= x < 0x1_0000
  }

  lemma PortWrap(x: int)
    ensures Uint16(Int32(x)) == Uint16(x) && (Uint16(Int32(x)) == x <==> PortNumber(x))
  {
    var q := (x + 0x8000_0000) / 0x1_0000_0000;
    assert Int32(x) == x - 0x1_0000 * (0x1_0000 * q);
    ModShift(x, 0x1_0000 * q);
  }

  lemma ModShift(x: int, k: int)
    ensures (x - 0x1_0000 * k) % 0x1_0000 == x % 0x1_0000
  {
    var q := x / 0x1_0000;
    assert x - 0x1_0000 * k == 0x1_0000 * (q - k) + x % 0x1_0000;
  }

  // The caller sees a container's ports as podman reports them if and only if all of them are.
  lemma PortsKept(c: PodmanContainer)
    ensures HostRow(ContainerRow(c)).ports == c.ports <==>
              forall i :: 0 <= i < |c.ports| ==> PortNumber(c.ports[i].host) && PortNumber(c.ports[i].container)
  {
    var seen := HostRow(ContainerRow(c)).ports;
    forall i | 0 <= i < |c.ports|
      ensures seen[i] == c.ports[i] <==> PortNumber(c.ports[i].host) && PortNumber(c.ports[i].container)
    {
      assert seen[i] == HostPort(WirePort(c.ports[i]));
      PortWrap(c.ports[i].host);
      PortWrap(c.ports[i].container);
    }
  }

  // ---------------------------------------------------------------- a reply to another command

  // Which replies a command takes for its own success.
  predicate Accepts(c: Command, r: Reply) {
    match c
    case ListContainers => r.ContainerListResponse?
    case ListVolumes => r.VolumeListResponse?
    case ListNetworks => r.NetworkListResponse?
    case CreateVolume(_) => r.VolumeActionResponse? && !Bad(r.result)
    case CreateNetwork(_) => r.NetworkActionResponse? && !Bad(r.result)
    case PruneVolumes => r.VolumePruneResponse? && !Bad(r.result)
    case PruneNetworks => r.NetworkPruneResponse? && !Bad(r.result)
    case _ => (r.VolumeActionResponse? || r.NetworkActionResponse?) && !Bad(r.result)
  }

  lemma AcceptsExact(c: Command, r: Reply)
    requires Meant(c).Some?
    ensures Succeeds(Answer(c, r)) <==> Accepts(c, r)
  {
  }

  predicate ActsOnVolume(c: Command) {
    c.CreateVolume? || c.RemoveVolume?
  }

  predicate ActsOnNetwork(c: Command) {
    c.CreateNetwork? || c.RemoveNetwork? || c.ConnectNetwork? || c.DisconnectNetwork?
  }

  // Commands whose replies cannot be told apart by the caller of `c`.
  predicate Confused(asked: Command, c: Command) {
    match c
    case CreateVolume(_) => ActsOnVolume(asked)
    case CreateNetwork(_) => ActsOnNetwork(asked)
    case ListContainers => asked.ListContainers?
    case ListVolumes => asked.ListVolumes?
    case ListNetworks => asked.ListNetworks?
    case PruneVolumes => asked.PruneVolumes?
    case PruneNetworks => asked.PruneNetworks?
    case _ => ActsOnVolume(asked) || ActsOnNetwork(asked)
  }

  // The kind of the agent's reply to a command, and that it reports podman's outcome.
  predicate ReplyTo(c: Command, r: Reply, failed: bool) {
    if c.ListContainers? || c.ListVolumes? || c.ListNetworks? then
      if failed then r.ErrorResponse?
      else if c.ListContainers? then r.ContainerListResponse?
      else if c.ListVolumes? then r.VolumeListResponse? else r.NetworkListResponse?
    else
      && (ActsOnVolume(c) ==> r.VolumeActionResponse? && (Bad(r.result) <==> failed))
      && (c.PruneVolumes? ==> r.VolumePruneResponse? && (Bad(r.result) <==> failed))
      && (ActsOnNetwork(c) ==> r.NetworkActionResponse? && (Bad(r.result) <==> failed))
      && (c.PruneNetworks? ==> r.NetworkPruneResponse? && (Bad(r.result) <==> failed))
  }

  lemma ListKind(c: Command, id: RequestId, o: Outcome)
    requires c.ListContainers? || c.ListVolumes? || c.ListNetworks?
    ensures ReplyTo(c, Replied(Enveloped(RequestFor(c, id).value), o), o.error.Some?)
  {
  }

  lemma VolumeKind(c: Command, id: RequestId, o: Outcome)
    requires (ActsOnVolume(c) || c.PruneVolumes?) && RequestFor(c, id).Some?
    ensures ReplyTo(c, Replied(Enveloped(RequestFor(c, id).value), o), o.error.Some?)
  {
  }

  lemma NetworkKind(c: Command, id: RequestId, o: Outcome)
    requires (ActsOnNetwork(c) || c.PruneNetworks?) && RequestFor(c, id).Some?
    ensures ReplyTo(c, Replied(Enveloped(RequestFor(c, id).value), o), o.error.Some?)
  {
  }

  lemma ReplyKind(c: Command, id: RequestId, o: Outcome)
    requires RequestFor(c, id).Some?
    ensures ReplyTo(c, Replied(Enveloped(RequestFor(c, id).value), o), o.error.Some?)
  {
    if c.ListContainers? || c.ListVolumes? || c.ListNetworks? {
      ListKind(c, id, o);
    } else if ActsOnVolume(c) || c.PruneVolumes? {
      VolumeKind(c, id, o);
    } else {
      NetworkKind(c, id, o);
    }
  }

  lemma ConfusedExact(asked: Command, c: Command, r: Reply, failed: bool)
    requires ReplyTo(asked, r, failed)
    ensures Accepts(c, r) <==> !failed && Confused(asked, c)
  {
  }

  // What a misdelivered reply does: the reply to `asked` is success for the caller of `c` if and only
  // if podman did what `asked` says and the two cannot be told apart.
  lemma WrongReply(asked: Command, c: Command, id: RequestId, o: Outcome)
    requires Meant(asked).Some? && Meant(c).Some? && RequestFor(asked, id).Some?
    ensures Succeeds(Answer(c, Replied(Enveloped(RequestFor(asked, id).value), o))) <==> o.error.None? && Confused(asked, c)
  {
    var r := Replied(Enveloped(RequestFor(asked, id).value), o);
    AcceptsExact(c, r);
    ReplyKind(asked, id, o);
    ConfusedExact(asked, c, r, o.error.Some?);
  }
}
