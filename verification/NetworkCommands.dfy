/** The network commands of the SSH transport. */
module NetworkCommands {
  import opened Common
  import opened Strings
  import opened Shell
  import opened Recreate
  import opened RunReading

  datatype CreateRequest = CreateRequest(
    name: string, driver: string, subnets: seq<string>, gateway: string, ipv6: bool, internal: bool,
    labels: map<string, string>, options: map<string, string>)

  function SubnetText(subnet: string): seq<string> {
    if Blank(subnet) then [] else [TrimSpace(subnet)]
  }

  function Switch(on: bool, flag: string): seq<Arg> {
    if on then [Fixed(flag)] else []
  }

  function Addressing(req: CreateRequest): seq<Opt> {
    [ Opt("--driver", Maybe(!Blank(req.driver), TrimSpace(req.driver))),
      Opt("--subnet", FlatMap(SubnetText, req.subnets)),
      Opt("--gateway", Maybe(!Blank(req.gateway), TrimSpace(req.gateway))) ]
  }

  ghost function Metadata(req: CreateRequest): seq<Opt> {
    [ Opt("--label", PairTexts(req.labels)), Opt("--opt", PairTexts(req.options)) ]
  }

  // podman network create <options> -- <name>
  function CreateLine(rootful: bool, first: seq<Opt>, ipv6: bool, internal: bool, last: seq<Opt>, name: string): seq<Arg> {
    Podman(rootful) + ([Fixed("network"), Fixed("create")]
    + (FlagArgs(first) + (Switch(ipv6, "--ipv6") + (Switch(internal, "--internal") + (FlagArgs(last) + [Fixed("--"), Quoted(name)])))))
  }

  ghost function CreateArgs(rootful: bool, req: CreateRequest): seq<Arg> {
    CreateLine(rootful, Addressing(req), req.ipv6, req.internal, Metadata(req), TrimSpace(req.name))
  }

  // ---------------------------------------------------------------- building it

  method AddSubnets(args: seq<string>, subnets: seq<string>) returns (r: seq<string>)
    ensures r == args + Printed(Flagged("--subnet", FlatMap(SubnetText, subnets)))
  {
    r := args;
    ghost var done: seq<string> := [];
    for i := 0 to |subnets|
      invariant done == FlatMap(SubnetText, subnets[..i])
      invariant r == args + Printed(Flagged("--subnet", done))
    {
      assert subnets[..i + 1] == subnets[..i] + [subnets[i]];
      FlatMapSnoc(SubnetText, subnets[..i], subnets[i]);
      var subnet := TrimSpace(subnets[i]);
      if subnet != "" {
        r := Append(r, "--subnet", subnet, args, done);
        done := done + [subnet];
      }
    }
    assert subnets[..|subnets|] == subnets;
  }

  method AddAddressing(head: seq<string>, req: CreateRequest) returns (args: seq<string>)
    ensures Carries(args, head, Addressing(req))
  {
    args := head;
    ghost var done: seq<Opt> := [];
    args := AddOne(args, head, done, "--driver", Maybe(!Blank(req.driver), TrimSpace(req.driver)));
    done := done + [Opt("--driver", Maybe(!Blank(req.driver), TrimSpace(req.driver)))];
    OneMore(args, head, done, "--subnet", FlatMap(SubnetText, req.subnets));
    args := AddSubnets(args, req.subnets);
    done := done + [Opt("--subnet", FlatMap(SubnetText, req.subnets))];
    args := AddOne(args, head, done, "--gateway", Maybe(!Blank(req.gateway), TrimSpace(req.gateway)));
    done := done + [Opt("--gateway", Maybe(!Blank(req.gateway), TrimSpace(req.gateway)))];
    assert done == Addressing(req);
  }

  method AddMetadata(head: seq<string>, req: CreateRequest) returns (args: seq<string>)
    ensures Carries(args, head, Metadata(req))
  {
    args := head;
    ghost var done: seq<Opt> := [];
    OneMore(args, head, done, "--label", PairTexts(req.labels));
    args := AddPairs(args, "--label", req.labels);
    done := done + [Opt("--label", PairTexts(req.labels))];
    OneMore(args, head, done, "--opt", PairTexts(req.options));
    args := AddPairs(args, "--opt", req.options);
    done := done + [Opt("--opt", PairTexts(req.options))];
    assert done == Metadata(req);
  }

  // The command line CreateNetwork runs; a blank name is refused before anything is printed.
  method CreateNetworkCommand(rootful: bool, req: CreateRequest) returns (cmd: Option<string>)
    ensures cmd.None? <==> Blank(req.name)
    ensures cmd.Some? ==> cmd.value == CommandLine(CreateArgs(rootful, req))
  {
    var name := TrimSpace(req.name);
    if name == "" {
      return None;
    }
    var args := AddAddressing([Bin(rootful), "network", "create"], req);
    ghost var first := args;
    if req.ipv6 {
      args := args + ["--ipv6"];
    }
    assert args == first + SwitchText(req.ipv6, "--ipv6");
    ghost var second := args;
    if req.internal {
      args := args + ["--internal"];
    }
    assert args == second + SwitchText(req.internal, "--internal");
    args := AddMetadata(args, req);
    args := args + ["--", ShellQuote(name)];
    CreateAssembled(rootful, Addressing(req), req.ipv6, req.internal, Metadata(req), name);
    cmd := Some(Join(args, " "));
  }

  function SwitchText(on: bool, flag: string): seq<string> {
    if on then [flag] else []
  }

  lemma SwitchPrinted(on: bool, flag: string)
    ensures Printed(Switch(on, flag)) == SwitchText(on, flag) == Texts(Switch(on, flag))
  {
    assert [Fixed(flag)][1..] == [];
  }

  function CreateTail(first: seq<Opt>, ipv6: bool, internal: bool, last: seq<Opt>, name: string): seq<string> {
    ["network", "create"] + (Printed(FlagArgs(first)) + (SwitchText(ipv6, "--ipv6") + (SwitchText(internal, "--internal")
    + (Printed(FlagArgs(last)) + ["--", ShellQuote(name)]))))
  }

  lemma PrintedTwo(a: Arg, b: Arg)
    ensures Printed([a, b]) == [Print(a), Print(b)]
  {
    assert [a, b][1..] == [b] && [b][1..] == [];
    assert Printed([b]) == [Print(b)] + Printed([]);
  }

  lemma CreatePrinted(rootful: bool, first: seq<Opt>, ipv6: bool, internal: bool, last: seq<Opt>, name: string)
    ensures Printed(CreateLine(rootful, first, ipv6, internal, last, name))
         == Printed(Podman(rootful)) + CreateTail(first, ipv6, internal, last, name)
  {
    var z := [Fixed("--"), Quoted(name)];
    var y := FlagArgs(last) + z;
    var x := Switch(internal, "--internal") + y;
    var w := Switch(ipv6, "--ipv6") + x;
    var v := FlagArgs(first) + w;
    var u := [Fixed("network"), Fixed("create")];
    PrintedConcat(Podman(rootful), u + v);
    PrintedConcat(u, v);
    PrintedConcat(FlagArgs(first), w);
    PrintedConcat(Switch(ipv6, "--ipv6"), x);
    PrintedConcat(Switch(internal, "--internal"), y);
    PrintedConcat(FlagArgs(last), z);
    PrintedTwo(Fixed("--"), Quoted(name));
    PrintedTwo(Fixed("network"), Fixed("create"));
    SwitchPrinted(ipv6, "--ipv6");
    SwitchPrinted(internal, "--internal");
  }

  lemma Reassociate(x: string, y: string, z: string, p: seq<string>, q: seq<string>, r: seq<string>, s: seq<string>, t: seq<string>)
    ensures [x, y, z] + p + q + r + s + t == [x] + ([y, z] + (p + (q + (r + (s + t)))))
  {
  }

  lemma CreateAssembled(rootful: bool, first: seq<Opt>, ipv6: bool, internal: bool, last: seq<Opt>, name: string)
    ensures Join([Bin(rootful), "network", "create"] + Printed(FlagArgs(first)) + SwitchText(ipv6, "--ipv6")
                 + SwitchText(internal, "--internal") + Printed(FlagArgs(last)) + ["--", ShellQuote(name)], " ")
         == CommandLine(CreateLine(rootful, first, ipv6, internal, last, name))
  {
    var tail := CreateTail(first, ipv6, internal, last, name);
    CreatePrinted(rootful, first, ipv6, internal, last, name);
    Reassociate(Bin(rootful), "network", "create", Printed(FlagArgs(first)), SwitchText(ipv6, "--ipv6"),
                SwitchText(internal, "--internal"), Printed(FlagArgs(last)), ["--", ShellQuote(name)]);
    BinJoin(rootful, tail);
  }

  // ---------------------------------------------------------------- reading it

  datatype CreateSpec = CreateSpec(options: map<string, seq<string>>, switches: set<string>, name: string)

  predicate CreateValue(flag: string) {
    flag in {"--driver", "--subnet", "--gateway", "--label", "--opt"}
  }

  // The option parser of `podman network create`: after `--` the next word is the name, whatever it
  // looks like.
  function ReadCreate(ws: seq<string>, options: map<string, seq<string>>, switches: set<string>): Option<CreateSpec>
    decreases |ws|
  {
    if ws == [] then None
    else if ws[0] == "--" then (if |ws| == 2 then Some(CreateSpec(options, switches, ws[1])) else None)
    else if ws[0] in {"--ipv6", "--internal"} then ReadCreate(ws[1..], options, switches + {ws[0]})
    else if CreateValue(ws[0]) && |ws| >= 2 then ReadCreate(ws[2..], Give(options, ws[0], ws[1]), switches)
    else None
  }

  ghost predicate AllCreateValues(opts: seq<Opt>) {
    forall i :: 0 <= i < |opts| ==> CreateValue(opts[i].flag)
  }

  lemma ReadOne(flag: string, value: string, tail: seq<string>, m: map<string, seq<string>>, on: set<string>)
    requires CreateValue(flag)
    ensures ReadCreate([flag, value] + tail, m, on) == ReadCreate(tail, Give(m, flag, value), on)
  {
    assert ([flag, value] + tail)[2..] == tail;
  }

  lemma {:induction false} ReadCreateFlagged(flag: string, values: seq<string>, rest: seq<string>,
                                             m: map<string, seq<string>>, on: set<string>)
    requires CreateValue(flag)
    ensures ReadCreate(Texts(Flagged(flag, values)) + rest, m, on) == ReadCreate(rest, GiveAll(m, flag, values), on)
    decreases |values|
  {
    if values == [] {
      assert Texts(Flagged(flag, values)) + rest == rest;
    } else {
      var tail := Texts(Flagged(flag, values[1..])) + rest;
      assert Texts(Flagged(flag, values)) + rest == [flag, values[0]] + tail by {
        FlaggedTexts(flag, values);
      }
      ReadOne(flag, values[0], tail, m, on);
      ReadCreateFlagged(flag, values[1..], rest, Give(m, flag, values[0]), on);
    }
  }

  lemma {:induction false} ReadCreateArgs(opts: seq<Opt>, rest: seq<string>, m: map<string, seq<string>>, on: set<string>)
    requires AllCreateValues(opts)
    ensures ReadCreate(Texts(FlagArgs(opts)) + rest, m, on) == ReadCreate(rest, Collect(m, opts), on)
    decreases |opts|
  {
    if opts == [] {
      assert Texts(FlagArgs(opts)) + rest == rest;
    } else {
      var o, tail := opts[0], Texts(FlagArgs(opts[1..])) + rest;
      TextsConcat(Flagged(o.flag, o.values), FlagArgs(opts[1..]));
      assert Texts(FlagArgs(opts)) + rest == Texts(Flagged(o.flag, o.values)) + tail;
      ReadCreateFlagged(o.flag, o.values, tail, m, on);
      ReadCreateArgs(opts[1..], rest, GiveAll(m, o.flag, o.values), on);
    }
  }

  function SwitchSet(on: bool, flag: string): set<string> {
    if on then {flag} else {}
  }

  lemma ReadSwitch(on: bool, flag: string, rest: seq<string>, m: map<string, seq<string>>, switches: set<string>)
    requires flag in {"--ipv6", "--internal"}
    ensures ReadCreate(SwitchText(on, flag) + rest, m, switches) == ReadCreate(rest, m, switches + SwitchSet(on, flag))
  {
    if on {
      assert ([flag] + rest)[1..] == rest;
    } else {
      assert [] + rest == rest && switches + {} == switches;
    }
  }

  // The words after the program and the two command words.
  function CreateWords(first: seq<Opt>, ipv6: bool, internal: bool, last: seq<Opt>, name: string): seq<string> {
    Texts(FlagArgs(first)) + (SwitchText(ipv6, "--ipv6") + (SwitchText(internal, "--internal")
    + (Texts(FlagArgs(last)) + ["--", name])))
  }

  lemma CreateTexts(rootful: bool, first: seq<Opt>, ipv6: bool, internal: bool, last: seq<Opt>, name: string)
    ensures Texts(CreateLine(rootful, first, ipv6, internal, last, name))
         == Texts(Podman(rootful)) + (["network", "create"] + CreateWords(first, ipv6, internal, last, name))
  {
    var z := [Fixed("--"), Quoted(name)];
    var y := FlagArgs(last) + z;
    var x := Switch(internal, "--internal") + y;
    var w := Switch(ipv6, "--ipv6") + x;
    var v := FlagArgs(first) + w;
    var u := [Fixed("network"), Fixed("create")];
    TextsConcat(Podman(rootful), u + v);
    TextsConcat(u, v);
    TextsConcat(FlagArgs(first), w);
    TextsConcat(Switch(ipv6, "--ipv6"), x);
    TextsConcat(Switch(internal, "--internal"), y);
    TextsConcat(FlagArgs(last), z);
    TextsTwo(Fixed("--"), Quoted(name));
    TextsTwo(Fixed("network"), Fixed("create"));
    SwitchPrinted(ipv6, "--ipv6");
    SwitchPrinted(internal, "--internal");
  }

  lemma {:induction false} ReadCreateWords(first: seq<Opt>, ipv6: bool, internal: bool, last: seq<Opt>, name: string)
    requires AllCreateValues(first) && AllCreateValues(last)
    ensures ReadCreate(CreateWords(first, ipv6, internal, last, name), map[], {})
         == Some(CreateSpec(Collect(Collect(map[], first), last),
                            SwitchSet(ipv6, "--ipv6") + SwitchSet(internal, "--internal"), name))
  {
    var m := Collect(map[], first);
    var z := ["--", name];
    var y := Texts(FlagArgs(last)) + z;
    var x := SwitchText(internal, "--internal") + y;
    ReadCreateArgs(first, SwitchText(ipv6, "--ipv6") + x, map[], {});
    ReadSwitch(ipv6, "--ipv6", x, m, {});
    ReadSwitch(internal, "--internal", y, m, SwitchSet(ipv6, "--ipv6"));
    assert {} + SwitchSet(ipv6, "--ipv6") == SwitchSet(ipv6, "--ipv6");
    ReadCreateArgs(last, z, m, SwitchSet(ipv6, "--ipv6") + SwitchSet(internal, "--internal"));
  }

  lemma CreateFlagPlain(flag: string)
    requires CreateValue(flag)
    ensures PlainWord(flag)
  {
  }

  lemma {:induction false} CreateArgsPrintable(opts: seq<Opt>)
    requires AllCreateValues(opts)
    ensures Printable(FlagArgs(opts))
  {
    if opts != [] {
      CreateFlagPlain(opts[0].flag);
      FlaggedPrintable(opts[0].flag, opts[0].values);
      CreateArgsPrintable(opts[1..]);
      PrintableConcat(Flagged(opts[0].flag, opts[0].values), FlagArgs(opts[1..]));
    }
  }

  lemma SwitchPrintable(ipv6: bool, internal: bool)
    ensures Printable(Switch(ipv6, "--ipv6")) && Printable(Switch(internal, "--internal"))
  {
  }

  lemma VerbPrintable(name: string)
    ensures Printable([Fixed("network"), Fixed("create")]) && Printable([Fixed("--"), Quoted(name)])
  {
  }

  lemma CreateLinePrintable(rootful: bool, first: seq<Opt>, ipv6: bool, internal: bool, last: seq<Opt>, name: string)
    requires AllCreateValues(first) && AllCreateValues(last)
    ensures Printable(CreateLine(rootful, first, ipv6, internal, last, name))
  {
    var z := [Fixed("--"), Quoted(name)];
    var y := FlagArgs(last) + z;
    var x := Switch(internal, "--internal") + y;
    var w := Switch(ipv6, "--ipv6") + x;
    var v := FlagArgs(first) + w;
    var u := [Fixed("network"), Fixed("create")];
    CreateArgsPrintable(first);
    CreateArgsPrintable(last);
    SwitchPrintable(ipv6, internal);
    VerbPrintable(name);
    PodmanTexts(rootful);
    PrintableConcat(FlagArgs(last), z);
    PrintableConcat(Switch(internal, "--internal"), y);
    PrintableConcat(Switch(ipv6, "--ipv6"), x);
    PrintableConcat(FlagArgs(first), w);
    PrintableConcat(u, v);
    PrintableConcat(Podman(rootful), u + v);
  }

  lemma CreateLineRead(rootful: bool, first: seq<Opt>, ipv6: bool, internal: bool, last: seq<Opt>, name: string)
    requires AllCreateValues(first) && AllCreateValues(last)
    ensures var line := CreateLine(rootful, first, ipv6, internal, last, name);
            var k := |Texts(Podman(rootful))|;
            && ShellWords(CommandLine(line)) == Some(Texts(line))
            && Texts(Podman(rootful)) + ["network", "create"] <= Texts(line)
            && Texts(line)[k + 2..] == CreateWords(first, ipv6, internal, last, name)
  {
    CreateLinePrintable(rootful, first, ipv6, internal, last, name);
    CommandRoundTrip(CreateLine(rootful, first, ipv6, internal, last, name));
    CreateTexts(rootful, first, ipv6, internal, last, name);
    AfterVerb(Texts(Podman(rootful)), CreateWords(first, ipv6, internal, last, name));
  }

  lemma AfterVerb(p: seq<string>, w: seq<string>)
    ensures var words := p + (["network", "create"] + w);
            p + ["network", "create"] <= words && words[|p| + 2..] == w
  {
  }

  // For every request, the shell splits the printed command into the intended words, and the option
  // parser recovers each option, switch and the name, even a name that looks like an option.
  lemma CreateNetworkRead(rootful: bool, req: CreateRequest)
    ensures ShellWords(CommandLine(CreateArgs(rootful, req))) == Some(Texts(CreateArgs(rootful, req)))
    ensures var words := Texts(CreateArgs(rootful, req));
            var k := |Texts(Podman(rootful))|;
            && Texts(Podman(rootful)) + ["network", "create"] <= words
            && ReadCreate(words[k + 2..], map[], {})
               == Some(CreateSpec(Collect(Collect(map[], Addressing(req)), Metadata(req)),
                                  SwitchSet(req.ipv6, "--ipv6") + SwitchSet(req.internal, "--internal"),
                                  TrimSpace(req.name)))
    ensures var given := Collect(Collect(map[], Addressing(req)), Metadata(req));
            forall o :: o in Addressing(req) || o in Metadata(req) ==> Given(given, o.flag) == o.values
  {
    CreateShape(req);
    CreateReads(rootful, Addressing(req), req.ipv6, req.internal, Metadata(req), TrimSpace(req.name));
    CreateGiven(req);
  }

  lemma CreateShape(req: CreateRequest)
    ensures AllCreateValues(Addressing(req)) && AllCreateValues(Metadata(req)) && Distinct(Addressing(req) + Metadata(req))
  {
    FiveFlags(Addressing(req), Metadata(req));
  }

  lemma FiveFlags(first: seq<Opt>, last: seq<Opt>)
    requires |first| == 3 && first[0].flag == "--driver" && first[1].flag == "--subnet" && first[2].flag == "--gateway"
    requires |last| == 2 && last[0].flag == "--label" && last[1].flag == "--opt"
    ensures AllCreateValues(first) && AllCreateValues(last) && Distinct(first + last)
  {
    var flags := ["--driver", "--subnet", "--gateway", "--label", "--opt"];
    assert "--driver"[2] == 'd' && "--subnet"[2] == 's' && "--gateway"[2] == 'g' && "--label"[2] == 'l' && "--opt"[2] == 'o';
    assert forall i :: 0 <= i < 5 ==> (first + last)[i].flag == flags[i];
    assert forall i, j :: 0 <= i < j < 5 ==> flags[i][2] != flags[j][2];
    assert forall i, j :: 0 <= i < j < 5 ==> flags[i] != flags[j];
  }

  lemma CreateReads(rootful: bool, first: seq<Opt>, ipv6: bool, internal: bool, last: seq<Opt>, name: string)
    requires AllCreateValues(first) && AllCreateValues(last)
    ensures var line := CreateLine(rootful, first, ipv6, internal, last, name);
            var k := |Texts(Podman(rootful))|;
            && ShellWords(CommandLine(line)) == Some(Texts(line))
            && Texts(Podman(rootful)) + ["network", "create"] <= Texts(line)
            && ReadCreate(Texts(line)[k + 2..], map[], {})
               == Some(CreateSpec(Collect(Collect(map[], first), last), SwitchSet(ipv6, "--ipv6") + SwitchSet(internal, "--internal"), name))
  {
    CreateLineRead(rootful, first, ipv6, internal, last, name);
    ReadCreateWords(first, ipv6, internal, last, name);
  }

  lemma {:induction false} CollectConcat(m: map<string, seq<string>>, a: seq<Opt>, b: seq<Opt>)
    ensures Collect(m, a + b) == Collect(Collect(m, a), b)
    decreases |a|
  {
    if a == [] {
      assert a + b == b;
    } else {
      assert (a + b)[1..] == a[1..] + b;
      CollectConcat(GiveAll(m, a[0].flag, a[0].values), a[1..], b);
    }
  }

  lemma CreateGiven(req: CreateRequest)
    ensures var given := Collect(Collect(map[], Addressing(req)), Metadata(req));
            forall o :: o in Addressing(req) || o in Metadata(req) ==> Given(given, o.flag) == o.values
  {
    CreateShape(req);
    CollectConcat(map[], Addressing(req), Metadata(req));
    AllGiven(Addressing(req) + Metadata(req));
  }

  // ---------------------------------------------------------------- ListNetworks

  function ListScript(rootful: bool): string {
    "names=$(" + Bin(rootful) + " network ls --format '{{.Name}}'); if [ -z \"$names\" ]; then printf '[]'; else "
    + Bin(rootful) + " network inspect $names --format json; fi"
  }

  function ListNetworksCommand(rootful: bool): string {
    "sh -lc " + ShellQuote(ListScript(rootful))
  }

  lemma CommandLineThree(a: Arg, b: Arg, c: Arg)
    ensures CommandLine([a, b, c]) == Print(a) + (" " + (Print(b) + (" " + Print(c))))
    ensures Texts([a, b, c]) == [a.text, b.text, c.text]
  {
    assert [a, b, c][1..] == [b, c] && [b, c][1..] == [c];
    CommandLineCons([a, b, c]);
    CommandLineCons([b, c]);
    CommandLineOne(c);
  }

  // Whatever the script, quoting it once hands it to the inner shell intact, its own quotes included.
  lemma NestedScript(script: string)
    ensures ShellWords("sh -lc " + ShellQuote(script)) == Some(["sh", "-lc", script])
  {
    var args := [Fixed("sh"), Fixed("-lc"), Quoted(script)];
    CommandLineThree(args[0], args[1], args[2]);
    CommandRoundTrip(args);
    assert "sh" + (" " + ("-lc" + (" " + ShellQuote(script)))) == "sh -lc " + ShellQuote(script);
  }

  lemma ListNetworksRead(rootful: bool)
    ensures ShellWords(ListNetworksCommand(rootful)) == Some(["sh", "-lc", ListScript(rootful)])
  {
    NestedScript(ListScript(rootful));
  }
}
