/** What the values of printed options mean: reading mounts, ports and pairs back from a command. */
module OptionValues {
  import opened Common
  import opened Strings
  import opened Shell
  import opened Recreate
  import opened RunReading
  import opened NetworkCommands

  // ---------------------------------------------------------------- splitting

  function FirstOf(s: string, c: char): (i: nat)
    ensures i <= |s| && (i < |s| ==> s[i] == c) && forall j :: 0 <= j < i ==> s[j] != c
  {
    if s == [] || s[0] == c then 0 else 1 + FirstOf(s[1..], c)
  }

  // The parts of a text between separators.
  function Fields(s: string, c: char): seq<string>
    decreases |s|
  {
    var i := FirstOf(s, c);
    if i == |s| then [s] else [s[..i]] + Fields(s[i + 1..], c)
  }

  lemma FieldsCons(a: string, rest: string, c: char)
    requires c !in a
    ensures Fields(a + [c] + rest, c) == [a] + Fields(rest, c)
  {
    var s := a + [c] + rest;
    var i := FirstOf(s, c);
    assert s[|a|] == c;
    assert forall j :: 0 <= j < |a| ==> s[j] == a[j];
    assert i == |a|;
    assert s[..i] == a && s[i + 1..] == rest;
  }

  lemma FieldsOne(a: string, c: char)
    requires c !in a
    ensures Fields(a, c) == [a]
  {
    assert FirstOf(a, c) == |a|;
  }

  lemma {:induction false} FieldsFree(s: string, c: char)
    ensures forall k :: 0 <= k < |Fields(s, c)| ==> c !in Fields(s, c)[k]
    decreases |s|
  {
    var i := FirstOf(s, c);
    if i < |s| {
      FieldsFree(s[i + 1..], c);
      assert c !in s[..i];
    }
  }

  // ---------------------------------------------------------------- mounts

  datatype ReadMount = ReadMount(source: string, destination: string, readOnly: bool)

  // The value of -v: source, destination, and options of which `ro` makes the mount read-only.
  function ReadVolume(text: string): Option<ReadMount> {
    var fs := Fields(text, ':');
    if |fs| == 2 then Some(ReadMount(fs[0], fs[1], false))
    else if |fs| == 3 then Some(ReadMount(fs[0], fs[1], fs[2] == "ro"))
    else None
  }

  function ReadVolumes(text: string): seq<ReadMount> {
    if ReadVolume(text).Some? then [ReadVolume(text).value] else []
  }

  // A mount that can be recreated.
  function Usable(m: Mount): seq<ReadMount> {
    if m.source == "" || m.destination == "" then [] else [ReadMount(m.source, m.destination, !m.rw)]
  }

  predicate Readable(m: Mount) {
    ':' !in m.source && ':' !in m.destination
  }

  lemma TwoFields(a: string, b: string, c: char)
    requires c !in a && c !in b
    ensures Fields(a + [c] + b, c) == [a, b]
  {
    FieldsCons(a, b, c);
    FieldsOne(b, c);
  }

  lemma ThreeFields(a: string, b: string, d: string, c: char)
    requires c !in a && c !in b && c !in d
    ensures Fields(a + [c] + (b + [c] + d), c) == [a, b, d]
  {
    FieldsCons(a, b + [c] + d, c);
    TwoFields(b, d, c);
  }

  lemma VolumeFree(text: string)
    ensures ReadVolume(text).Some? ==> ':' !in ReadVolume(text).value.source && ':' !in ReadVolume(text).value.destination
  {
    FieldsFree(text, ':');
  }

  // A usable mount is read back, with its access, if and only if neither path has a colon.
  lemma MountRead(m: Mount)
    requires m.source != "" && m.destination != ""
    ensures |VolumeText(m)| == 1
    ensures ReadVolume(VolumeText(m)[0]) == Some(ReadMount(m.source, m.destination, !m.rw)) <==> Readable(m)
  {
    var text := VolumeText(m)[0];
    VolumeFree(text);
    if Readable(m) {
      if m.rw {
        assert text == m.source + [':'] + m.destination;
        TwoFields(m.source, m.destination, ':');
      } else {
        assert text == m.source + [':'] + (m.destination + [':'] + "ro");
        ThreeFields(m.source, m.destination, "ro", ':');
      }
    }
  }

  // ---------------------------------------------------------------- ports

  datatype ReadBinding = ReadBinding(hostIp: string, hostPort: string, port: string)

  // The value of -p: an address, if any, the host's port and the container's.
  function ReadPort(text: string): Option<ReadBinding> {
    var fs := Fields(text, ':');
    if |fs| == 2 then Some(ReadBinding("", fs[0], fs[1]))
    else if |fs| == 3 then Some(ReadBinding(fs[0], fs[1], fs[2]))
    else None
  }

  function ReadPorts(text: string): seq<ReadBinding> {
    if ReadPort(text).Some? then [ReadPort(text).value] else []
  }

  function Bound(port: string): Binding -> seq<ReadBinding> {
    (b: Binding) => if Blank(b.hostPort) then [] else [ReadBinding(b.hostIp, b.hostPort, port)]
  }

  predicate Addressable(port: string, b: Binding) {
    ':' !in b.hostIp && ':' !in b.hostPort && ':' !in port
  }

  lemma PortFree(text: string)
    ensures ReadPort(text).Some? ==>
              ':' !in ReadPort(text).value.hostIp && ':' !in ReadPort(text).value.hostPort && ':' !in ReadPort(text).value.port
  {
    FieldsFree(text, ':');
  }

  lemma PortGiven(port: string, b: Binding)
    requires Addressable(port, b)
    ensures ReadPort(b.hostPort + [':'] + port) == Some(ReadBinding("", b.hostPort, port))
    ensures ReadPort(b.hostIp + [':'] + (b.hostPort + [':'] + port)) == Some(ReadBinding(b.hostIp, b.hostPort, port))
  {
    TwoFields(b.hostPort, port, ':');
    ThreeFields(b.hostIp, b.hostPort, port, ':');
  }

  lemma BindingIs(port: string, b: Binding)
    requires !Blank(b.hostPort)
    ensures BindingText(port)(b)
         == if b.hostIp != "" then [b.hostIp + [':'] + (b.hostPort + [':'] + port)] else [b.hostPort + [':'] + port]
  {
    assert b.hostIp + ":" + b.hostPort + ":" + port == b.hostIp + [':'] + (b.hostPort + [':'] + port);
    assert b.hostPort + ":" + port == b.hostPort + [':'] + port;
  }

  // A bound port is read back if and only if its address and ports have no colon.
  lemma BindingRead(port: string, b: Binding)
    requires !Blank(b.hostPort)
    ensures |BindingText(port)(b)| == 1
    ensures ReadPort(BindingText(port)(b)[0]) == Some(ReadBinding(b.hostIp, b.hostPort, port)) <==> Addressable(port, b)
  {
    PortFree(BindingText(port)(b)[0]);
    BindingIs(port, b);
    if Addressable(port, b) {
      PortGiven(port, b);
    }
  }

  // ---------------------------------------------------------------- labels and options

  datatype ReadPair = ReadPair(key: string, value: string)

  // A key, up to the first equals sign, and its value.
  function PairOf(text: string): Option<ReadPair> {
    var i := FirstOf(text, '=');
    if i == |text| then None else Some(ReadPair(text[..i], text[i + 1..]))
  }

  function PairsOf(text: string): seq<ReadPair> {
    if PairOf(text).Some? then [PairOf(text).value] else []
  }

  function Item(m: map<string, string>): string -> seq<ReadPair> {
    k => if k in m then [ReadPair(k, m[k])] else []
  }

  // A pair is read back if and only if its key has no equals sign.
  lemma PairRead(key: string, value: string)
    ensures PairOf(key + "=" + value) == Some(ReadPair(key, value)) <==> '=' !in key
  {
    var text := key + "=" + value;
    var i := FirstOf(text, '=');
    assert text[|key|] == '=';
    if '=' !in key {
      assert forall j :: 0 <= j < |key| ==> text[j] == key[j];
      assert i == |key|;
      assert text[..i] == key && text[i + 1..] == value;
    } else if i < |text| {
      assert forall j :: 0 <= j < i ==> text[j] != '=';
      assert '=' !in text[..i];
    }
  }

  // ---------------------------------------------------------------- reading a list of values

  lemma {:induction false} ReadBack<T, U>(f: T -> seq<string>, read: string -> seq<U>, g: T -> seq<U>, s: seq<T>)
    requires forall i :: 0 <= i < |s| ==> FlatMap(read, f(s[i])) == g(s[i])
    ensures FlatMap(read, FlatMap(f, s)) == FlatMap(g, s)
  {
    if s != [] {
      ReadBack(f, read, g, s[1..]);
      FlatMapConcat(read, f(s[0]), FlatMap(f, s[1..]));
    }
  }

  lemma FlatOne<U>(read: string -> seq<U>, text: string)
    ensures FlatMap(read, [text]) == read(text)
  {
    assert FlatMap(read, [text]) == read(text) + FlatMap(read, [text][1..]) == read(text);
  }

  // The mounts read from the values of -v are the usable mounts of the container.
  lemma VolumesRead(mounts: seq<Mount>, given: seq<Mount>)
    requires multiset(mounts) == multiset(given)
    requires forall i :: 0 <= i < |mounts| ==> Readable(mounts[i])
    ensures multiset(FlatMap(ReadVolumes, VolumeTexts(mounts))) == multiset(FlatMap(Usable, given))
  {
    forall i | 0 <= i < |mounts|
      ensures FlatMap(ReadVolumes, VolumeText(mounts[i])) == Usable(mounts[i])
    {
      var m := mounts[i];
      if m.source != "" && m.destination != "" {
        MountRead(m);
        assert VolumeText(m) == [VolumeText(m)[0]];
        FlatOne(ReadVolumes, VolumeText(m)[0]);
      }
    }
    ReadBack(VolumeText, ReadVolumes, Usable, mounts);
    FlatMapPermuted(Usable, mounts, given);
  }

  function AllBound(ports: map<string, seq<Binding>>): string -> seq<ReadBinding> {
    k => if k in ports then FlatMap(Bound(k), ports[k]) else []
  }

  ghost predicate AllAddressable(ports: map<string, seq<Binding>>) {
    forall k, i :: k in ports && 0 <= i < |ports[k]| ==> Addressable(k, ports[k][i])
  }

  lemma PortBindings(ports: map<string, seq<Binding>>, k: string)
    requires AllAddressable(ports)
    ensures FlatMap(ReadPorts, PortText(ports)(k)) == AllBound(ports)(k)
  {
    if k in ports {
      forall i | 0 <= i < |ports[k]|
        ensures FlatMap(ReadPorts, BindingText(k)(ports[k][i])) == Bound(k)(ports[k][i])
      {
        var b := ports[k][i];
        if !Blank(b.hostPort) {
          BindingRead(k, b);
          assert BindingText(k)(b) == [BindingText(k)(b)[0]];
          FlatOne(ReadPorts, BindingText(k)(b)[0]);
        }
      }
      ReadBack(BindingText(k), ReadPorts, Bound(k), ports[k]);
    }
  }

  // The ports read from the values of -p are the bound ports, for every order of the map.
  lemma PortsRead(ports: map<string, seq<Binding>>, keys: seq<string>)
    requires AllAddressable(ports) && multiset(keys) == multiset(ports.Keys)
    ensures multiset(FlatMap(ReadPorts, PortTexts(ports))) == multiset(FlatMap(AllBound(ports), keys))
  {
    var sorted := SortedKeys(ports.Keys);
    forall i | 0 <= i < |sorted|
      ensures FlatMap(ReadPorts, PortText(ports)(sorted[i])) == AllBound(ports)(sorted[i])
    {
      PortBindings(ports, sorted[i]);
    }
    ReadBack(PortText(ports), ReadPorts, AllBound(ports), sorted);
    FlatMapPermuted(ReadPorts, PortTexts(ports), FlatMap(PortText(ports), sorted));
    FlatMapPermuted(AllBound(ports), sorted, keys);
  }

  // The pairs read are those of the map, for every order of it.
  lemma PairsRead(m: map<string, string>, keys: seq<string>)
    requires multiset(keys) == multiset(m.Keys) && forall k :: k in m ==> '=' !in k
    ensures multiset(FlatMap(PairsOf, PairTexts(m))) == multiset(FlatMap(Item(m), keys))
  {
    var sorted := SortedKeys(m.Keys);
    forall i | 0 <= i < |sorted|
      ensures FlatMap(PairsOf, PairText(m)(sorted[i])) == Item(m)(sorted[i])
    {
      var k := sorted[i];
      if k in m {
        PairRead(k, m[k]);
        FlatOne(PairsOf, k + "=" + m[k]);
      }
    }
    ReadBack(PairText(m), PairsOf, Item(m), sorted);
    FlatMapPermuted(Item(m), sorted, keys);
  }

  // ---------------------------------------------------------------- the recreated container

  function WithoutSlash(name: string): string {
    if name != "" && name[0] == '/' then name[1..] else name
  }

  lemma SlashDropped(name: string)
    ensures TrimPrefix(name, "/") == WithoutSlash(name)
  {
    assert "/" <= name <==> name != "" && name[0] == '/';
  }

  // What is read from the printed command: the words of the shell, given to the parser of podman run.
  ghost function ReadBackRun(rootful: bool, e: Entry, mounts: seq<Mount>, image: string): RunSpec
    requires !("-" <= image)
  {
    RunCommandRead(rootful, e, mounts, image);
    ReadRun(ShellWords(CommandLine(RunArgs(rootful, e, mounts, image))).value).value
  }

  lemma RunGives(rootful: bool, e: Entry, mounts: seq<Mount>, image: string, o: Opt)
    requires !("-" <= image) && o in Options(e, mounts)
    ensures Given(ReadBackRun(rootful, e, mounts, image).options, o.flag) == o.values
  {
    RunCommandRead(rootful, e, mounts, image);
  }

  lemma IdentityFlags(rootful: bool, e: Entry, mounts: seq<Mount>, image: string)
    requires !("-" <= image)
    ensures var options := ReadBackRun(rootful, e, mounts, image).options;
            && Given(options, "--name") == [TrimPrefix(e.name, "/")]
            && Given(options, "--hostname") == Maybe(e.hostname != "", e.hostname)
            && Given(options, "--restart") == Maybe(!Blank(e.restart), TrimSpace(e.restart))
            && Given(options, "--label") == PairTexts(e.labels) && Given(options, "--env") == EnvTexts(e.env)
  {
    var opts := Options(e, mounts);
    RunGives(rootful, e, mounts, image, opts[0]);
    RunGives(rootful, e, mounts, image, opts[1]);
    RunGives(rootful, e, mounts, image, opts[2]);
    RunGives(rootful, e, mounts, image, opts[3]);
    RunGives(rootful, e, mounts, image, opts[4]);
  }

  lemma ResourceFlags(rootful: bool, e: Entry, mounts: seq<Mount>, image: string)
    requires !("-" <= image)
    ensures var options := ReadBackRun(rootful, e, mounts, image).options;
            && Given(options, "-v") == VolumeTexts(mounts) && Given(options, "-p") == PortTexts(e.ports)
            && Given(options, "--network") == RunNetworks(e)
            && Given(options, "--entrypoint") == Maybe(e.entrypoint != [], Join(e.entrypoint, " "))
  {
    var opts := Options(e, mounts);
    RunGives(rootful, e, mounts, image, opts[5]);
    RunGives(rootful, e, mounts, image, opts[6]);
    RunGives(rootful, e, mounts, image, opts[7]);
    RunGives(rootful, e, mounts, image, opts[8]);
  }

  // Name, hostname, restart policy, image, command and entrypoint of the container.
  lemma IdentityKept(rootful: bool, e: Entry, mounts: seq<Mount>, image: string)
    requires !("-" <= image)
    ensures var r := ReadBackRun(rootful, e, mounts, image);
            && r.detached && r.image == image && r.cmd == e.cmd
            && Given(r.options, "--name") == [WithoutSlash(e.name)]
            && Given(r.options, "--hostname") == (if e.hostname == "" then [] else [e.hostname])
            && Given(r.options, "--restart") == (if TrimSpace(e.restart) == "" then [] else [TrimSpace(e.restart)])
            && Given(r.options, "--entrypoint") == (if e.entrypoint == [] then [] else [Join(e.entrypoint, " ")])
  {
    IdentityFlags(rootful, e, mounts, image);
    ResourceFlags(rootful, e, mounts, image);
    RunCommandRead(rootful, e, mounts, image);
    SlashDropped(e.name);
  }

  // Every environment entry that is not blank, as often as the container has it, and no other.
  lemma EnvironmentKept(rootful: bool, e: Entry, mounts: seq<Mount>, image: string, entry: string)
    requires !("-" <= image)
    ensures multiset(Given(ReadBackRun(rootful, e, mounts, image).options, "--env"))[entry]
         == if TrimSpace(entry) == "" then 0 else multiset(e.env)[entry]
  {
    IdentityFlags(rootful, e, mounts, image);
    EnvCounted(SortStrings(e.env), entry);
  }

  lemma {:induction false} EnvCounted(env: seq<string>, entry: string)
    ensures multiset(FlatMap(EnvText, env))[entry] == if TrimSpace(entry) == "" then 0 else multiset(env)[entry]
  {
    if env != [] {
      EnvCounted(env[1..], entry);
      assert env == [env[0]] + env[1..];
    }
  }

  // Labels, mounts and ports, read back from the command, are those of the container, each as often as
  // it has it, in whatever order its maps are iterated.
  lemma LabelsKept(rootful: bool, e: Entry, mounts: seq<Mount>, image: string, labels: seq<string>)
    requires !("-" <= image) && multiset(labels) == multiset(e.labels.Keys) && forall k :: k in e.labels ==> '=' !in k
    ensures multiset(FlatMap(PairsOf, Given(ReadBackRun(rootful, e, mounts, image).options, "--label")))
         == multiset(FlatMap(Item(e.labels), labels))
  {
    IdentityFlags(rootful, e, mounts, image);
    PairsRead(e.labels, labels);
  }

  lemma MountsKept(rootful: bool, e: Entry, mounts: seq<Mount>, image: string)
    requires !("-" <= image) && MountOrder(mounts, e.mounts) && forall i :: 0 <= i < |mounts| ==> Readable(mounts[i])
    ensures multiset(FlatMap(ReadVolumes, Given(ReadBackRun(rootful, e, mounts, image).options, "-v")))
         == multiset(FlatMap(Usable, e.mounts))
  {
    ResourceFlags(rootful, e, mounts, image);
    VolumesRead(mounts, e.mounts);
  }

  lemma PortsKept(rootful: bool, e: Entry, mounts: seq<Mount>, image: string, ports: seq<string>)
    requires !("-" <= image) && multiset(ports) == multiset(e.ports.Keys) && AllAddressable(e.ports)
    ensures multiset(FlatMap(ReadPorts, Given(ReadBackRun(rootful, e, mounts, image).options, "-p")))
         == multiset(FlatMap(AllBound(e.ports), ports))
  {
    ResourceFlags(rootful, e, mounts, image);
    PortsRead(e.ports, ports);
  }

  // The network option: the mode, unless it is the default, else one of the networks, if there is any.
  lemma NetworkKept(rootful: bool, e: Entry, mounts: seq<Mount>, image: string)
    requires !("-" <= image)
    ensures var given := Given(ReadBackRun(rootful, e, mounts, image).options, "--network");
            if TrimSpace(e.networkMode) in {"", "default"} then
              if e.networks == map[] then given == [] else |given| == 1 && given[0] in e.networks
            else given == [TrimSpace(e.networkMode)]
  {
    ResourceFlags(rootful, e, mounts, image);
    var keys := SortedKeys(e.networks.Keys);
    if keys != [] {
      assert keys[0] in multiset(keys);
    } else {
      assert multiset(e.networks.Keys) == multiset{};
      assert e.networks == map[] by {
        assert forall k :: k in e.networks ==> k in multiset(e.networks.Keys);
      }
    }
    if e.networks == map[] {
      assert |multiset(keys)| == 0;
    }
  }

  // ---------------------------------------------------------------- the commands of an update

  function PodmanWords(rootful: bool): seq<string> {
    if rootful then ["sudo", "podman"] else ["podman"]
  }

  lemma SimpleWords(rootful: bool, verb: string, arg: Arg)
    requires PlainWord(verb) && (arg.Fixed? ==> PlainWord(arg.text))
    ensures ShellWords(CommandLine(Simple(rootful, verb, arg))) == Some(PodmanWords(rootful) + [verb, arg.text])
  {
    PodmanTexts(rootful);
    TextsTwo(Fixed(verb), arg);
    TextsConcat(Podman(rootful), [Fixed(verb), arg]);
    PrintableConcat(Podman(rootful), [Fixed(verb), arg]);
    CommandRoundTrip(Simple(rootful, verb, arg));
  }

  lemma {:induction false} ConnectsWords(rootful: bool, networks: seq<string>, container: string, i: nat)
    requires i < |networks|
    ensures |Connects(rootful, networks, container)| == |networks|
    ensures ShellWords(Connects(rootful, networks, container)[i]) == Some(PodmanWords(rootful) + ["network", "connect", networks[i], container])
  {
    if i == 0 {
      ConnectTexts(rootful, networks[0], container);
      ConnectPrintable(rootful, networks[0], container);
      CommandRoundTrip(ConnectArgs(rootful, networks[0], container));
    }
    if |networks| > 1 {
      ConnectsWords(rootful, networks[1..], container, if i == 0 then 0 else i - 1);
    }
  }

  lemma PartsAt(a: seq<string>, b: string, c: seq<string>)
    ensures |a + [b] + c| == |a| + 1 + |c| && (a + [b] + c)[|a|] == b
    ensures forall j :: 0 <= j < |a| ==> (a + [b] + c)[j] == a[j]
    ensures forall j :: 0 <= j < |c| ==> (a + [b] + c)[|a| + 1 + j] == c[j]
  {
  }

  lemma PullWords(rootful: bool, image: string)
    requires SanitizeImageRef(image) != ""
    ensures ShellWords(PullCommand(rootful, image)) == Some(PodmanWords(rootful) + ["pull", SanitizeImageRef(image)])
  {
    SanitizedPlain(image);
    SimpleWords(rootful, "pull", Fixed(SanitizeImageRef(image)));
  }

  lemma StopWords(rootful: bool, e: Entry)
    ensures ShellWords(StopCommand(rootful, e)) == Some(PodmanWords(rootful) + ["stop", e.id])
    ensures ShellWords(RemoveCommand(rootful, e)) == Some(PodmanWords(rootful) + ["rm", e.id])
  {
    SimpleWords(rootful, "stop", Quoted(e.id));
    SimpleWords(rootful, "rm", Quoted(e.id));
  }

  lemma PrepareAre(rootful: bool, e: Entry, image: string)
    ensures Prepare(rootful, e, image)
         == if e.running then [PullCommand(rootful, image), StopCommand(rootful, e), RemoveCommand(rootful, e)]
            else [PullCommand(rootful, image), RemoveCommand(rootful, e)]
  {
  }

  // The words of an update's commands, in order: pull the image, stop the container if it is running,
  // remove it, and run it again.
  lemma PlanWords(rootful: bool, e: Entry, mounts: seq<Mount>, image: string)
    requires SanitizeImageRef(image) != ""
    ensures var plan := Plan(rootful, e, mounts, image);
            var k := if e.running then 3 else 2;
            && |plan| > k
            && ShellWords(plan[0]) == Some(PodmanWords(rootful) + ["pull", SanitizeImageRef(image)])
            && (e.running ==> ShellWords(plan[1]) == Some(PodmanWords(rootful) + ["stop", e.id]))
            && ShellWords(plan[k - 1]) == Some(PodmanWords(rootful) + ["rm", e.id])
            && plan[k] == CommandLine(RunArgs(rootful, e, mounts, image))
  {
    PullWords(rootful, image);
    StopWords(rootful, e);
    PrepareAre(rootful, e, image);
    PartsAt(Prepare(rootful, e, image), CommandLine(RunArgs(rootful, e, mounts, image)),
            Connects(rootful, ExtraNetworks(e), TrimPrefix(e.name, "/")));
  }

  lemma {:induction false} ConnectsCount(rootful: bool, networks: seq<string>, container: string)
    ensures |Connects(rootful, networks, container)| == |networks|
  {
    if networks != [] {
      ConnectsCount(rootful, networks[1..], container);
    }
  }

  ghost predicate ConnectsAll(cmds: seq<string>, rootful: bool, networks: seq<string>, container: string) {
    && |cmds| == |networks|
    && forall i :: 0 <= i < |networks| ==>
         ShellWords(cmds[i]) == Some(PodmanWords(rootful) + ["network", "connect", networks[i], container])
  }

  lemma AllConnects(rootful: bool, networks: seq<string>, container: string)
    ensures ConnectsAll(Connects(rootful, networks, container), rootful, networks, container)
  {
    ConnectsCount(rootful, networks, container);
    forall i | 0 <= i < |networks|
      ensures ShellWords(Connects(rootful, networks, container)[i]) == Some(PodmanWords(rootful) + ["network", "connect", networks[i], container])
    {
      ConnectsWords(rootful, networks, container, i);
    }
  }

  lemma After(a: seq<string>, b: string, c: seq<string>)
    ensures (a + [b] + c)[|a| + 1..] == c
  {
  }

  // After that it connects the container, under its name, to each remaining network.
  lemma PlanConnects(rootful: bool, e: Entry, mounts: seq<Mount>, image: string)
    ensures var plan := Plan(rootful, e, mounts, image);
            var k := if e.running then 4 else 3;
            k <= |plan| && ConnectsAll(plan[k..], rootful, ExtraNetworks(e), WithoutSlash(e.name))
  {
    PlanTail(rootful, e, mounts, image);
    SlashDropped(e.name);
    AllConnects(rootful, ExtraNetworks(e), WithoutSlash(e.name));
  }

  lemma PlanTail(rootful: bool, e: Entry, mounts: seq<Mount>, image: string)
    ensures var plan := Plan(rootful, e, mounts, image);
            var k := if e.running then 4 else 3;
            k <= |plan| && plan[k..] == Connects(rootful, ExtraNetworks(e), TrimPrefix(e.name, "/"))
  {
    PrepareAre(rootful, e, image);
    After(Prepare(rootful, e, image), CommandLine(RunArgs(rootful, e, mounts, image)),
          Connects(rootful, ExtraNetworks(e), TrimPrefix(e.name, "/")));
  }

  // The image pulled is the reference with every other character left out, so an ordinary one is kept.
  lemma {:induction false} ImageKept(ref: string)
    requires forall i :: 0 <= i < |ref| ==>
               'a' <= ref[i] <= 'z' || 'A' <= ref[i] <= 'Z' || '0' <= ref[i] <= '9' || ref[i] in "-_./:@"
    ensures SanitizeImageRef(ref) == ref
  {
    if ref != [] {
      ImageKept(ref[1..]);
      assert ref == [ref[0]] + ref[1..];
    }
  }

  // ---------------------------------------------------------------- a network

  lemma OptionsCarried(req: CreateRequest, labels: seq<string>, options: seq<string>)
    requires multiset(labels) == multiset(req.labels.Keys) && multiset(options) == multiset(req.options.Keys)
    ensures Carried(Collect(Collect(map[], Addressing(req)), Metadata(req)), req, labels, options)
  {
    CreateGiven(req);
    assert Addressing(req)[0] in Addressing(req) && Addressing(req)[1] in Addressing(req) && Addressing(req)[2] in Addressing(req);
    assert Metadata(req)[0] in Metadata(req) && Metadata(req)[1] in Metadata(req);
    SubnetsAre(req.subnets);
    if forall k :: k in req.labels ==> '=' !in k {
      PairsRead(req.labels, labels);
    }
    if forall k :: k in req.options ==> '=' !in k {
      PairsRead(req.options, options);
    }
  }

  // What a printed network creation says, from the request.
  lemma CreateCarries(rootful: bool, req: CreateRequest, labels: seq<string>, options: seq<string>)
    requires multiset(labels) == multiset(req.labels.Keys) && multiset(options) == multiset(req.options.Keys)
    ensures var words := ShellWords(CommandLine(CreateArgs(rootful, req)));
            var k := |PodmanWords(rootful)|;
            && words.Some? && PodmanWords(rootful) + ["network", "create"] <= words.value
            && var spec := ReadCreate(words.value[k + 2..], map[], {});
               && spec.Some? && spec.value.name == TrimSpace(req.name)
               && ("--ipv6" in spec.value.switches <==> req.ipv6) && ("--internal" in spec.value.switches <==> req.internal)
               && Carried(spec.value.options, req, labels, options)
  {
    CreateNetworkRead(rootful, req);
    PodmanTexts(rootful);
    SwitchesRead(req.ipv6, req.internal);
    OptionsCarried(req, labels, options);
  }

  lemma SwitchesRead(ipv6: bool, internal: bool)
    ensures "--ipv6" in SwitchSet(ipv6, "--ipv6") + SwitchSet(internal, "--internal") <==> ipv6
    ensures "--internal" in SwitchSet(ipv6, "--ipv6") + SwitchSet(internal, "--internal") <==> internal
  {
    assert |"--ipv6"| == 6 && |"--internal"| == 10;
  }

  // Subnets that are not blank, trimmed, in order.
  function Subnets(subnets: seq<string>): seq<string> {
    if subnets == [] then []
    else
      var init, last := Subnets(subnets[..|subnets| - 1]), TrimSpace(subnets[|subnets| - 1]);
      if last == "" then init else init + [last]
  }

  lemma {:induction false} SubnetsAre(subnets: seq<string>)
    ensures FlatMap(SubnetText, subnets) == Subnets(subnets)
  {
    if subnets != [] {
      var n := |subnets| - 1;
      SubnetsAre(subnets[..n]);
      FlatMapSnoc(SubnetText, subnets[..n], subnets[n]);
      assert subnets == subnets[..n] + [subnets[n]];
    }
  }

  ghost predicate Carried(given: map<string, seq<string>>, req: CreateRequest, labels: seq<string>, options: seq<string>) {
    && Given(given, "--driver") == (if TrimSpace(req.driver) == "" then [] else [TrimSpace(req.driver)])
    && Given(given, "--gateway") == (if TrimSpace(req.gateway) == "" then [] else [TrimSpace(req.gateway)])
    && Given(given, "--subnet") == Subnets(req.subnets)
    && ((forall k :: k in req.labels ==> '=' !in k) ==>
          multiset(FlatMap(PairsOf, Given(given, "--label"))) == multiset(FlatMap(Item(req.labels), labels)))
    && ((forall k :: k in req.options ==> '=' !in k) ==>
          multiset(FlatMap(PairsOf, Given(given, "--opt"))) == multiset(FlatMap(Item(req.options), options)))
  }
}
