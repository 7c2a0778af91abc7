/** Recreating a standalone container: what the `podman run` command should carry, and the loops that
    print it. */
module Recreate {
  import opened Common
  import opened Strings
  import opened Shell

  datatype Mount = Mount(source: string, destination: string, rw: bool)

  datatype Binding = Binding(hostIp: string, hostPort: string)

  // What `podman inspect` reports, as far as recreation uses it; `entrypoint` is already decoded.
  datatype Entry = Entry(
    id: string, name: string, running: bool, hostname: string, restart: string,
    labels: map<string, string>, env: seq<string>, mounts: seq<Mount>,
    ports: map<string, seq<Binding>>, networks: map<string, string>, networkMode: string,
    entrypoint: seq<string>, cmd: seq<string>)

  // ---------------------------------------------------------------- what the command should carry

  function PairText(m: map<string, string>): string -> seq<string> {
    k => if k in m then [k + "=" + m[k]] else []
  }

  ghost function PairTexts(m: map<string, string>): seq<string> {
    FlatMap(PairText(m), SortedKeys(m.Keys))
  }

  function EnvText(env: string): seq<string> {
    if Blank(env) then [] else [env]
  }

  function EnvTexts(env: seq<string>): seq<string> {
    FlatMap(EnvText, SortStrings(env))
  }

  function VolumeText(m: Mount): seq<string> {
    if m.source == "" || m.destination == "" then []
    else [m.source + ":" + m.destination + (if m.rw then "" else ":ro")]
  }

  function VolumeTexts(mounts: seq<Mount>): seq<string> {
    FlatMap(VolumeText, mounts)
  }

  function BindingText(port: string): Binding -> seq<string> {
    (b: Binding) =>
      if Blank(b.hostPort) then []
      else if b.hostIp != "" then [b.hostIp + ":" + b.hostPort + ":" + port]
      else [b.hostPort + ":" + port]
  }

  function PortText(ports: map<string, seq<Binding>>): string -> seq<string> {
    k => if k in ports then FlatMap(BindingText(k), ports[k]) else []
  }

  ghost function PortTexts(ports: map<string, seq<Binding>>): seq<string> {
    SortStrings(FlatMap(PortText(ports), SortedKeys(ports.Keys)))
  }

  predicate DefaultNetworking(e: Entry) {
    TrimSpace(e.networkMode) == "" || TrimSpace(e.networkMode) == "default"
  }

  ghost function RunNetworks(e: Entry): seq<string> {
    if !DefaultNetworking(e) then [TrimSpace(e.networkMode)]
    else
      var keys := SortedKeys(e.networks.Keys);
      if keys == [] then [] else [keys[0]]
  }

  ghost function ExtraNetworks(e: Entry): seq<string> {
    var keys := SortedKeys(e.networks.Keys);
    if DefaultNetworking(e) && keys != [] then keys[1..] else []
  }

  function Maybe(given: bool, value: string): seq<string> {
    if given then [value] else []
  }

  // An option of `podman run` and the values it is given, in order.
  datatype Opt = Opt(flag: string, values: seq<string>)

  ghost function IdentityOptions(e: Entry): seq<Opt> {
    [ Opt("--name", [TrimPrefix(e.name, "/")]),
      Opt("--hostname", Maybe(e.hostname != "", e.hostname)),
      Opt("--restart", Maybe(!Blank(e.restart), TrimSpace(e.restart))),
      Opt("--label", PairTexts(e.labels)),
      Opt("--env", EnvTexts(e.env)) ]
  }

  ghost function ResourceOptions(e: Entry, mounts: seq<Mount>): seq<Opt> {
    [ Opt("-v", VolumeTexts(mounts)),
      Opt("-p", PortTexts(e.ports)),
      Opt("--network", RunNetworks(e)),
      Opt("--entrypoint", Maybe(e.entrypoint != [], Join(e.entrypoint, " "))) ]
  }

  // `mounts` is the order sort.Slice put the mounts in: it is not stable, so any is allowed.
  ghost function Options(e: Entry, mounts: seq<Mount>): seq<Opt> {
    IdentityOptions(e) + ResourceOptions(e, mounts)
  }

  // ---------------------------------------------------------------- the printed command

  function Flagged(flag: string, values: seq<string>): seq<Arg> {
    if values == [] then [] else [Fixed(flag), Quoted(values[0])] + Flagged(flag, values[1..])
  }

  function FlagArgs(opts: seq<Opt>): seq<Arg> {
    if opts == [] then [] else Flagged(opts[0].flag, opts[0].values) + FlagArgs(opts[1..])
  }

  function QuotedAll(values: seq<string>): seq<Arg> {
    if values == [] then [] else [Quoted(values[0])] + QuotedAll(values[1..])
  }

  function Podman(rootful: bool): seq<Arg> {
    if rootful then [Fixed("sudo"), Fixed("podman")] else [Fixed("podman")]
  }

  // podman run -d <options> <image> <command>
  function RunLine(rootful: bool, opts: seq<Opt>, image: string, cmd: seq<string>): seq<Arg> {
    Podman(rootful) + ([Fixed("run"), Fixed("-d")] + (FlagArgs(opts) + ([Quoted(image)] + QuotedAll(cmd))))
  }

  ghost function RunArgs(rootful: bool, e: Entry, mounts: seq<Mount>, image: string): seq<Arg> {
    RunLine(rootful, Options(e, mounts), image, e.cmd)
  }

  lemma {:induction false} PrintedConcat(a: seq<Arg>, b: seq<Arg>)
    ensures Printed(a + b) == Printed(a) + Printed(b)
  {
    if a == [] {
      assert a + b == b;
    } else {
      assert (a + b)[1..] == a[1..] + b;
      PrintedConcat(a[1..], b);
    }
  }

  lemma {:induction false} TextsConcat(a: seq<Arg>, b: seq<Arg>)
    ensures Texts(a + b) == Texts(a) + Texts(b)
  {
    if a == [] {
      assert a + b == b;
    } else {
      assert (a + b)[1..] == a[1..] + b;
      TextsConcat(a[1..], b);
    }
  }

  lemma {:induction false} FlaggedSnoc(flag: string, values: seq<string>, v: string)
    ensures Printed(Flagged(flag, values + [v])) == Printed(Flagged(flag, values)) + [flag, ShellQuote(v)]
  {
    if values == [] {
      assert values + [v] == [v] && [v][1..] == [];
      assert Flagged(flag, [v]) == [Fixed(flag), Quoted(v)];
      assert Printed([Fixed(flag), Quoted(v)]) == [flag] + Printed([Quoted(v)]);
      assert Printed([Quoted(v)]) == [ShellQuote(v)] + Printed([]);
    } else {
      assert (values + [v])[1..] == values[1..] + [v];
      FlaggedSnoc(flag, values[1..], v);
      PrintedConcat([Fixed(flag), Quoted(values[0])], Flagged(flag, values[1..] + [v]));
      PrintedConcat([Fixed(flag), Quoted(values[0])], Flagged(flag, values[1..]));
    }
  }

  lemma {:induction false} FlagArgsSnoc(opts: seq<Opt>, o: Opt)
    ensures FlagArgs(opts + [o]) == FlagArgs(opts) + Flagged(o.flag, o.values)
  {
    if opts == [] {
      assert opts + [o] == [o] && [o][1..] == [];
      assert FlagArgs([o]) == Flagged(o.flag, o.values) + [];
    } else {
      assert (opts + [o])[1..] == opts[1..] + [o];
      FlagArgsSnoc(opts[1..], o);
    }
  }

  // ---------------------------------------------------------------- building it

  // One flag and its quoted value at the end of the arguments.
  method Append(args: seq<string>, flag: string, value: string, ghost before: seq<string>, ghost done: seq<string>)
    returns (r: seq<string>)
    requires args == before + Printed(Flagged(flag, done))
    ensures r == before + Printed(Flagged(flag, done + [value]))
  {
    r := args + [flag, ShellQuote(value)];
    FlaggedSnoc(flag, done, value);
  }

  method AddAll(args: seq<string>, flag: string, values: seq<string>) returns (r: seq<string>)
    ensures r == args + Printed(Flagged(flag, values))
  {
    r := args;
    for i := 0 to |values|
      invariant r == args + Printed(Flagged(flag, values[..i]))
    {
      assert values[..i + 1] == values[..i] + [values[i]];
      r := Append(r, flag, values[i], args, values[..i]);
    }
    assert values[..|values|] == values;
  }

  lemma PairStep(pairs: map<string, string>, keys: seq<string>, i: nat)
    requires i < |keys| && keys[i] in pairs
    ensures FlatMap(PairText(pairs), keys[..i + 1]) == FlatMap(PairText(pairs), keys[..i]) + [keys[i] + "=" + pairs[keys[i]]]
  {
    FlatMapSnoc(PairText(pairs), keys[..i], keys[i]);
    assert keys[..i + 1] == keys[..i] + [keys[i]];
  }

  lemma KeysOfMap(keys: seq<string>, pairs: map<string, string>)
    requires multiset(keys) == multiset(pairs.Keys)
    ensures forall i :: 0 <= i < |keys| ==> keys[i] in pairs
  {
    forall i | 0 <= i < |keys|
      ensures keys[i] in pairs
    {
      assert keys[i] in multiset(keys);
    }
  }

  // Labels, and the options of a network: one flag for each key, in sorted order.
  method AddPairs(args: seq<string>, flag: string, pairs: map<string, string>) returns (r: seq<string>)
    ensures r == args + Printed(Flagged(flag, PairTexts(pairs)))
  {
    var keys := SortedMapKeys(pairs);
    KeysOfMap(keys, pairs);
    r := args;
    ghost var done: seq<string> := [];
    for i := 0 to |keys|
      invariant done == FlatMap(PairText(pairs), keys[..i])
      invariant r == args + Printed(Flagged(flag, done))
    {
      PairStep(pairs, keys, i);
      var pair := keys[i] + "=" + pairs[keys[i]];
      r := Append(r, flag, pair, args, done);
      done := done + [pair];
    }
    assert keys[..|keys|] == keys;
  }

  method AddEnv(args: seq<string>, env: seq<string>) returns (r: seq<string>)
    ensures r == args + Printed(Flagged("--env", EnvTexts(env)))
  {
    var sorted := SortStrings(env);
    r := args;
    ghost var done: seq<string> := [];
    for i := 0 to |sorted|
      invariant done == FlatMap(EnvText, sorted[..i])
      invariant r == args + Printed(Flagged("--env", done))
    {
      assert sorted[..i + 1] == sorted[..i] + [sorted[i]];
      FlatMapSnoc(EnvText, sorted[..i], sorted[i]);
      if !Blank(sorted[i]) {
        r := Append(r, "--env", sorted[i], args, done);
        done := done + [sorted[i]];
      }
    }
    assert sorted[..|sorted|] == sorted;
  }

  method AddVolumes(args: seq<string>, mounts: seq<Mount>) returns (r: seq<string>)
    ensures r == args + Printed(Flagged("-v", VolumeTexts(mounts)))
  {
    r := args;
    ghost var done: seq<string> := [];
    for i := 0 to |mounts|
      invariant done == FlatMap(VolumeText, mounts[..i])
      invariant r == args + Printed(Flagged("-v", done))
    {
      var m := mounts[i];
      assert mounts[..i + 1] == mounts[..i] + [m];
      FlatMapSnoc(VolumeText, mounts[..i], m);
      if m.source != "" && m.destination != "" {
        var volume := m.source + ":" + m.destination;
        assert volume + "" == volume;
        if !m.rw {
          volume := volume + ":ro";
        }
        r := Append(r, "-v", volume, args, done);
        done := done + [volume];
      }
    }
    assert mounts[..|mounts|] == mounts;
  }

  method BindingsOf(port: string, bindings: seq<Binding>, ports: seq<string>) returns (r: seq<string>)
    ensures r == ports + FlatMap(BindingText(port), bindings)
  {
    r := ports;
    for i := 0 to |bindings|
      invariant r == ports + FlatMap(BindingText(port), bindings[..i])
    {
      var b := bindings[i];
      assert bindings[..i + 1] == bindings[..i] + [b];
      FlatMapSnoc(BindingText(port), bindings[..i], b);
      if Blank(b.hostPort) {
        continue;
      }
      if b.hostIp != "" {
        r := r + [b.hostIp + ":" + b.hostPort + ":" + port];
      } else {
        r := r + [b.hostPort + ":" + port];
      }
    }
    assert bindings[..|bindings|] == bindings;
  }

  // The port map is visited in whatever order iteration gives; sorting makes the result one.
  method SortedPorts(ports: map<string, seq<Binding>>) returns (r: seq<string>)
    ensures r == PortTexts(ports)
  {
    var left := ports.Keys;
    var list: seq<string> := [];
    ghost var visited: seq<string> := [];
    while left != {}
      invariant left <= ports.Keys
      invariant multiset(visited) + multiset(left) == multiset(ports.Keys)
      invariant list == FlatMap(PortText(ports), visited)
      decreases |left|
    {
      var k :| k in left;
      list := BindingsOf(k, ports[k], list);
      FlatMapSnoc(PortText(ports), visited, k);
      assert multiset(left) == multiset(left - {k}) + multiset{k};
      visited := visited + [k];
      left := left - {k};
    }
    FlatMapPermuted(PortText(ports), visited, SortedKeys(ports.Keys));
    SortStable(list, FlatMap(PortText(ports), SortedKeys(ports.Keys)));
    r := SortStrings(list);
  }

  method AddNetworks(args: seq<string>, e: Entry) returns (r: seq<string>, extra: seq<string>)
    ensures r == args + Printed(Flagged("--network", RunNetworks(e)))
    ensures extra == ExtraNetworks(e)
  {
    extra := [];
    r := args;
    var mode := TrimSpace(e.networkMode);
    if mode != "" && mode != "default" {
      r := AddAll(args, "--network", [mode]);
    } else {
      var networks := SortedMapKeys(e.networks);
      if |networks| > 0 {
        r := AddAll(args, "--network", [networks[0]]);
        if |networks| > 1 {
          extra := networks[1..];
        }
      }
    }
  }

  // sort.Slice by destination is not stable: any sorted arrangement of the mounts may come out.
  ghost predicate MountOrder(sorted: seq<Mount>, mounts: seq<Mount>) {
    && multiset(sorted) == multiset(mounts)
    && forall i, j :: 0 <= i < j < |sorted| ==> Le(sorted[i].destination, sorted[j].destination)
  }

  function Bin(rootful: bool): string {
    if rootful then "sudo podman" else "podman"
  }

  // buildStandaloneRunCommand.  The maps are visited in an arbitrary order, yet there is one result.
  method BuildStandaloneRunCommand(rootful: bool, e: Entry, mounts: seq<Mount>, image: string)
    returns (cmd: string, extra: seq<string>)
    requires MountOrder(mounts, e.mounts)
    ensures cmd == CommandLine(RunArgs(rootful, e, mounts, image))
    ensures extra == ExtraNetworks(e)
  {
    var head := [Bin(rootful), "run", "-d"];
    var args := AddIdentity(head, e);
    args, extra := AddResources(args, head, IdentityOptions(e), e, mounts);
    args := AddCommand(args, image, e.cmd);
    Assembled(rootful, Options(e, mounts), image, e.cmd);
    cmd := Join(args, " ");
  }

  // The image and the container's own command come last.
  method AddCommand(before: seq<string>, image: string, words: seq<string>) returns (args: seq<string>)
    ensures args == before + ([ShellQuote(image)] + Printed(QuotedAll(words)))
  {
    args := before + [ShellQuote(image)];
    for i := 0 to |words|
      invariant args == before + ([ShellQuote(image)] + Printed(QuotedAll(words[..i])))
    {
      QuotedAllSnoc(words[..i], words[i]);
      assert words[..i + 1] == words[..i] + [words[i]];
      args := args + [ShellQuote(words[i])];
    }
    assert words[..|words|] == words;
  }

  lemma Assembled(rootful: bool, opts: seq<Opt>, image: string, words: seq<string>)
    ensures Join([Bin(rootful), "run", "-d"] + Printed(FlagArgs(opts)) + ([ShellQuote(image)] + Printed(QuotedAll(words))), " ")
         == CommandLine(RunLine(rootful, opts, image, words))
  {
    var p, q := Printed(FlagArgs(opts)), [ShellQuote(image)] + Printed(QuotedAll(words));
    var tail := ["run", "-d"] + (p + q);
    RunLinePrinted(rootful, opts, image, words);
    assert [Bin(rootful), "run", "-d"] + p + q == [Bin(rootful)] + tail;
    BinJoin(rootful, tail);
  }

  lemma {:induction false} QuotedAllSnoc(values: seq<string>, v: string)
    ensures Printed(QuotedAll(values + [v])) == Printed(QuotedAll(values)) + [ShellQuote(v)]
  {
    if values == [] {
      assert values + [v] == [v] && [v][1..] == [];
      assert QuotedAll([v]) == [Quoted(v)] && [Quoted(v)][1..] == [];
    } else {
      assert (values + [v])[1..] == values[1..] + [v];
      QuotedAllSnoc(values[1..], v);
    }
  }

  lemma RunLinePrinted(rootful: bool, opts: seq<Opt>, image: string, cmd: seq<string>)
    ensures Printed(RunLine(rootful, opts, image, cmd))
         == Printed(Podman(rootful))
            + (["run", "-d"] + (Printed(FlagArgs(opts)) + ([ShellQuote(image)] + Printed(QuotedAll(cmd)))))
  {
    var a := [Fixed("run"), Fixed("-d")];
    var c := [Quoted(image)] + QuotedAll(cmd);
    PrintedConcat(Podman(rootful), a + (FlagArgs(opts) + c));
    PrintedConcat(a, FlagArgs(opts) + c);
    PrintedConcat(FlagArgs(opts), c);
    PrintedConcat([Quoted(image)], QuotedAll(cmd));
    assert a[1..] == [Fixed("-d")] && [Fixed("-d")][1..] == [] && [Quoted(image)][1..] == [];
    assert Printed(a) == ["run"] + Printed([Fixed("-d")]) == ["run", "-d"];
    assert Printed([Quoted(image)]) == [ShellQuote(image)];
  }

  // "sudo podman" is printed as one piece and read as two words.
  lemma BinJoin(rootful: bool, tail: seq<string>)
    requires tail != []
    ensures Join([Bin(rootful)] + tail, " ") == Join(Printed(Podman(rootful)) + tail, " ")
  {
    var podman := [Fixed("podman")];
    assert podman[1..] == [];
    assert Printed(podman) == ["podman"];
    if rootful {
      var both := [Fixed("sudo"), Fixed("podman")];
      assert both[1..] == podman;
      assert Printed(both) == ["sudo"] + ["podman"];
      assert ([Bin(rootful)] + tail)[1..] == tail;
      assert (["podman"] + tail)[1..] == tail;
      assert (Printed(both) + tail)[1..] == ["podman"] + tail;
      assert "sudo podman" == "sudo" + " " + "podman";
    }
  }

  ghost predicate Carries(args: seq<string>, head: seq<string>, done: seq<Opt>) {
    args == head + Printed(FlagArgs(done))
  }

  // The options in `done` and one more, after the same head.
  lemma OneMore(args: seq<string>, head: seq<string>, done: seq<Opt>, flag: string, values: seq<string>)
    requires Carries(args, head, done)
    ensures Carries(args + Printed(Flagged(flag, values)), head, done + [Opt(flag, values)])
  {
    FlagArgsSnoc(done, Opt(flag, values));
    PrintedConcat(FlagArgs(done), Flagged(flag, values));
  }

  method AddIdentity(head: seq<string>, e: Entry) returns (args: seq<string>)
    ensures Carries(args, head, IdentityOptions(e))
  {
    args := head;
    ghost var done: seq<Opt> := [];
    args := AddOne(args, head, done, "--name", [TrimPrefix(e.name, "/")]);
    done := done + [Opt("--name", [TrimPrefix(e.name, "/")])];
    args := AddOne(args, head, done, "--hostname", Maybe(e.hostname != "", e.hostname));
    done := done + [Opt("--hostname", Maybe(e.hostname != "", e.hostname))];
    args := AddOne(args, head, done, "--restart", Maybe(!Blank(e.restart), TrimSpace(e.restart)));
    done := done + [Opt("--restart", Maybe(!Blank(e.restart), TrimSpace(e.restart)))];
    OneMore(args, head, done, "--label", PairTexts(e.labels));
    args := AddPairs(args, "--label", e.labels);
    done := done + [Opt("--label", PairTexts(e.labels))];
    OneMore(args, head, done, "--env", EnvTexts(e.env));
    args := AddEnv(args, e.env);
    done := done + [Opt("--env", EnvTexts(e.env))];
    assert done == IdentityOptions(e);
  }

  method AddOne(args: seq<string>, ghost head: seq<string>, ghost done: seq<Opt>, flag: string, values: seq<string>)
    returns (r: seq<string>)
    requires Carries(args, head, done)
    ensures Carries(r, head, done + [Opt(flag, values)])
  {
    OneMore(args, head, done, flag, values);
    r := AddAll(args, flag, values);
  }

  method AddResources(before: seq<string>, ghost head: seq<string>, ghost identity: seq<Opt>, e: Entry, mounts: seq<Mount>)
    returns (args: seq<string>, extra: seq<string>)
    requires Carries(before, head, identity)
    ensures Carries(args, head, identity + ResourceOptions(e, mounts))
    ensures extra == ExtraNetworks(e)
  {
    ghost var done := identity;
    OneMore(before, head, done, "-v", VolumeTexts(mounts));
    args := AddVolumes(before, mounts);
    done := done + [Opt("-v", VolumeTexts(mounts))];
    var ports := SortedPorts(e.ports);
    args := AddOne(args, head, done, "-p", ports);
    done := done + [Opt("-p", ports)];
    OneMore(args, head, done, "--network", RunNetworks(e));
    args, extra := AddNetworks(args, e);
    done := done + [Opt("--network", RunNetworks(e))];
    args := AddOne(args, head, done, "--entrypoint", Maybe(e.entrypoint != [], Join(e.entrypoint, " ")));
    done := done + [Opt("--entrypoint", Maybe(e.entrypoint != [], Join(e.entrypoint, " ")))];
    assert done == identity + ResourceOptions(e, mounts);
  }
}
