/** How the printed `podman run` command is read back, and what an update attaches. */
module RunReading {
  import opened Common
  import opened Strings
  import opened Shell
  import opened Recreate

  // ---------------------------------------------------------------- the option parser of podman run

  // The values each option was given, in order, the image and the container's own command.
  datatype RunSpec = RunSpec(detached: bool, options: map<string, seq<string>>, image: string, cmd: seq<string>)

  predicate TakesValue(flag: string) {
    flag in {"--name", "--hostname", "--restart", "--label", "--env", "-v", "-p", "--network", "--entrypoint"}
  }

  function Given(options: map<string, seq<string>>, flag: string): seq<string> {
    if flag in options then options[flag] else []
  }

  function Give(options: map<string, seq<string>>, flag: string, value: string): map<string, seq<string>> {
    options[flag := Given(options, flag) + [value]]
  }

  // Options precede the image; a value option takes the next word whatever it looks like, and the
  // first word that is not an option is the image.
  function ReadOptions(ws: seq<string>, detached: bool, options: map<string, seq<string>>): Option<RunSpec>
    decreases |ws|
  {
    if ws == [] then None
    else if ws[0] == "-d" then ReadOptions(ws[1..], true, options)
    else if TakesValue(ws[0]) then
      if |ws| < 2 then None else ReadOptions(ws[2..], detached, Give(options, ws[0], ws[1]))
    else if "-" <= ws[0] then None
    else Some(RunSpec(detached, options, ws[0], ws[1..]))
  }

  function ReadRun(words: seq<string>): Option<RunSpec> {
    if ["podman", "run"] <= words then ReadOptions(words[2..], false, map[])
    else if ["sudo", "podman", "run"] <= words then ReadOptions(words[3..], false, map[])
    else None
  }

  function GiveAll(options: map<string, seq<string>>, flag: string, values: seq<string>): map<string, seq<string>>
    decreases |values|
  {
    if values == [] then options else GiveAll(Give(options, flag, values[0]), flag, values[1..])
  }

  function Collect(options: map<string, seq<string>>, opts: seq<Opt>): map<string, seq<string>>
    decreases |opts|
  {
    if opts == [] then options else Collect(GiveAll(options, opts[0].flag, opts[0].values), opts[1..])
  }

  lemma {:induction false} ReadFlagged(flag: string, values: seq<string>, rest: seq<string>, d: bool, m: map<string, seq<string>>)
    requires TakesValue(flag)
    ensures ReadOptions(Texts(Flagged(flag, values)) + rest, d, m) == ReadOptions(rest, d, GiveAll(m, flag, values))
    decreases |values|
  {
    if values == [] {
      assert Texts(Flagged(flag, values)) + rest == rest;
    } else {
      var tail := Texts(Flagged(flag, values[1..])) + rest;
      FlaggedTexts(flag, values);
      assert Texts(Flagged(flag, values)) + rest == [flag, values[0]] + tail;
      assert ([flag, values[0]] + tail)[2..] == tail;
      ReadFlagged(flag, values[1..], rest, d, Give(m, flag, values[0]));
    }
  }

  lemma FlaggedTexts(flag: string, values: seq<string>)
    requires values != []
    ensures Texts(Flagged(flag, values)) == [flag, values[0]] + Texts(Flagged(flag, values[1..]))
  {
    var pair := [Fixed(flag), Quoted(values[0])];
    TextsConcat(pair, Flagged(flag, values[1..]));
    assert pair[1..] == [Quoted(values[0])] && [Quoted(values[0])][1..] == [];
    assert Texts(pair) == [flag] + Texts([Quoted(values[0])]) == [flag, values[0]];
  }

  ghost predicate AllTakeValues(opts: seq<Opt>) {
    forall i :: 0 <= i < |opts| ==> TakesValue(opts[i].flag)
  }

  lemma {:induction false} ReadFlagArgs(opts: seq<Opt>, rest: seq<string>, d: bool, m: map<string, seq<string>>)
    requires AllTakeValues(opts)
    ensures ReadOptions(Texts(FlagArgs(opts)) + rest, d, m) == ReadOptions(rest, d, Collect(m, opts))
    decreases |opts|
  {
    if opts == [] {
      assert Texts(FlagArgs(opts)) + rest == rest;
    } else {
      var o, tail := opts[0], Texts(FlagArgs(opts[1..])) + rest;
      TextsConcat(Flagged(o.flag, o.values), FlagArgs(opts[1..]));
      assert Texts(FlagArgs(opts)) + rest == Texts(Flagged(o.flag, o.values)) + tail;
      ReadFlagged(o.flag, o.values, tail, d, m);
      ReadFlagArgs(opts[1..], rest, d, GiveAll(m, o.flag, o.values));
    }
  }

  // Whatever follows the options, the image that is read never looks like an option.
  lemma {:induction false} ReadImage(ws: seq<string>, d: bool, m: map<string, seq<string>>)
    ensures ReadOptions(ws, d, m).Some? ==> !("-" <= ReadOptions(ws, d, m).value.image)
    decreases |ws|
  {
    if ws != [] {
      if ws[0] == "-d" {
        ReadImage(ws[1..], true, m);
      } else if TakesValue(ws[0]) && |ws| >= 2 {
        ReadImage(ws[2..], d, Give(m, ws[0], ws[1]));
      }
    }
  }

  lemma {:induction false} GiveAllGiven(m: map<string, seq<string>>, flag: string, values: seq<string>, f: string)
    ensures Given(GiveAll(m, flag, values), f) == Given(m, f) + (if f == flag then values else [])
    decreases |values|
  {
    if values != [] {
      GiveAllGiven(Give(m, flag, values[0]), flag, values[1..], f);
      assert Given(m, f) + [values[0]] + values[1..] == Given(m, f) + values;
    }
  }

  // Reading a list of options gives each of them its own values, and nothing to any other.
  lemma {:induction false} CollectGiven(m: map<string, seq<string>>, opts: seq<Opt>, f: string)
    requires Distinct(opts)
    ensures forall i :: 0 <= i < |opts| && opts[i].flag == f ==>
              Given(Collect(m, opts), f) == Given(m, f) + opts[i].values
    ensures (forall i :: 0 <= i < |opts| ==> opts[i].flag != f) ==> Given(Collect(m, opts), f) == Given(m, f)
    decreases |opts|
  {
    if opts != [] {
      var m' := GiveAll(m, opts[0].flag, opts[0].values);
      GiveAllGiven(m, opts[0].flag, opts[0].values, f);
      CollectGiven(m', opts[1..], f);
      forall i | 0 <= i < |opts| && opts[i].flag == f
        ensures Given(Collect(m, opts), f) == Given(m, f) + opts[i].values
      {
        if i > 0 {
          assert opts[1..][i - 1].flag == f;
        } else {
          assert forall j :: 0 <= j < |opts[1..]| ==> opts[1..][j].flag == opts[j + 1].flag;
        }
      }
    }
  }

  ghost predicate Distinct(opts: seq<Opt>) {
    forall i, j :: 0 <= i < j < |opts| ==> opts[i].flag != opts[j].flag
  }

  lemma OptionsShape(e: Entry, mounts: seq<Mount>)
    ensures AllTakeValues(Options(e, mounts)) && Distinct(Options(e, mounts))
  {
  }

  // ---------------------------------------------------------------- the round trip

  lemma {:induction false} QuotedAllTexts(values: seq<string>)
    ensures Texts(QuotedAll(values)) == values
  {
    if values != [] {
      QuotedAllTexts(values[1..]);
    }
  }

  lemma RunLineTexts(rootful: bool, opts: seq<Opt>, image: string, cmd: seq<string>)
    ensures Texts(RunLine(rootful, opts, image, cmd))
         == Texts(Podman(rootful)) + (["run", "-d"] + (Texts(FlagArgs(opts)) + ([image] + cmd)))
  {
    var a := [Fixed("run"), Fixed("-d")];
    var c := [Quoted(image)] + QuotedAll(cmd);
    TextsConcat(Podman(rootful), a + (FlagArgs(opts) + c));
    TextsConcat(a, FlagArgs(opts) + c);
    TextsConcat(FlagArgs(opts), c);
    TextsConcat([Quoted(image)], QuotedAll(cmd));
    QuotedAllTexts(cmd);
    assert a[1..] == [Fixed("-d")] && [Fixed("-d")][1..] == [] && [Quoted(image)][1..] == [];
    assert Texts(a) == ["run"] + Texts([Fixed("-d")]) == ["run", "-d"];
    assert Texts([Quoted(image)]) == [image];
  }

  lemma PodmanTexts(rootful: bool)
    ensures Texts(Podman(rootful)) == if rootful then ["sudo", "podman"] else ["podman"]
    ensures Printable(Podman(rootful))
  {
    var podman := [Fixed("podman")];
    assert podman[1..] == [] && Texts(podman) == ["podman"] + Texts([]);
    if rootful {
      assert Podman(rootful)[1..] == podman;
    }
  }

  lemma ReadRunLine(rootful: bool, opts: seq<Opt>, image: string, cmd: seq<string>)
    requires AllTakeValues(opts)
    ensures ReadRun(Texts(RunLine(rootful, opts, image, cmd)))
         == ReadOptions([image] + cmd, true, Collect(map[], opts))
  {
    var tail := Texts(FlagArgs(opts)) + ([image] + cmd);
    var words := Texts(RunLine(rootful, opts, image, cmd));
    RunLineTexts(rootful, opts, image, cmd);
    PodmanTexts(rootful);
    var k := if rootful then 3 else 2;
    assert words[k..] == ["-d"] + tail && words[k - 1] == "run" && words[k - 2] == "podman";
    assert words[0] == if rootful then "sudo" else "podman";
    assert (["-d"] + tail)[1..] == tail;
    assert ReadRun(words) == ReadOptions(words[k..], false, map[]);
    ReadFlagArgs(opts, [image] + cmd, true, map[]);
  }

  lemma {:induction false} PrintableConcat(a: seq<Arg>, b: seq<Arg>)
    requires Printable(a) && Printable(b)
    ensures Printable(a + b)
  {
    forall i | 0 <= i < |a + b| && (a + b)[i].Fixed?
      ensures PlainWord((a + b)[i].text)
    {
      if i >= |a| {
        assert (a + b)[i] == b[i - |a|];
      }
    }
  }

  lemma {:induction false} FlagArgsPrintable(opts: seq<Opt>)
    requires AllTakeValues(opts)
    ensures Printable(FlagArgs(opts))
  {
    if opts != [] {
      assert AllTakeValues(opts[1..]);
      ValueFlagPlain(opts[0].flag);
      FlaggedPrintable(opts[0].flag, opts[0].values);
      FlagArgsPrintable(opts[1..]);
      PrintableConcat(Flagged(opts[0].flag, opts[0].values), FlagArgs(opts[1..]));
    }
  }

  lemma ValueFlagPlain(flag: string)
    requires TakesValue(flag)
    ensures PlainWord(flag)
  {
  }

  lemma {:induction false} FlaggedPrintable(flag: string, values: seq<string>)
    requires PlainWord(flag)
    ensures Printable(Flagged(flag, values))
  {
    if values != [] {
      FlaggedPrintable(flag, values[1..]);
      PrintableConcat([Fixed(flag), Quoted(values[0])], Flagged(flag, values[1..]));
    }
  }

  lemma {:induction false} QuotedAllPrintable(values: seq<string>)
    ensures Printable(QuotedAll(values))
  {
    if values != [] {
      QuotedAllPrintable(values[1..]);
      PrintableConcat([Quoted(values[0])], QuotedAll(values[1..]));
    }
  }

  lemma RunLinePrintable(rootful: bool, opts: seq<Opt>, image: string, cmd: seq<string>)
    requires AllTakeValues(opts)
    ensures Printable(RunLine(rootful, opts, image, cmd))
  {
    var a := [Fixed("run"), Fixed("-d")];
    FlagArgsPrintable(opts);
    QuotedAllPrintable(cmd);
    PodmanTexts(rootful);
    PrintableConcat([Quoted(image)], QuotedAll(cmd));
    PrintableConcat(FlagArgs(opts), [Quoted(image)] + QuotedAll(cmd));
    PrintableConcat(a, FlagArgs(opts) + ([Quoted(image)] + QuotedAll(cmd)));
    PrintableConcat(Podman(rootful), a + (FlagArgs(opts) + ([Quoted(image)] + QuotedAll(cmd))));
  }

  lemma RunLineRead(rootful: bool, opts: seq<Opt>, image: string, cmd: seq<string>)
    requires AllTakeValues(opts)
    ensures var words := ShellWords(CommandLine(RunLine(rootful, opts, image, cmd)));
            && words == Some(Texts(RunLine(rootful, opts, image, cmd)))
            && (ReadRun(words.value) == Some(RunSpec(true, Collect(map[], opts), image, cmd)) <==> !("-" <= image))
  {
    RunLinePrintable(rootful, opts, image, cmd);
    CommandRoundTrip(RunLine(rootful, opts, image, cmd));
    ReadRunLine(rootful, opts, image, cmd);
    ReadImage([image] + cmd, true, Collect(map[], opts));
    if !("-" <= image) {
      assert ([image] + cmd)[1..] == cmd;
    }
  }

  // What podman is told: the shell splits the printed command into words, and the option parser
  // recovers exactly the intended options, image and command, if and only if the image reference
  // does not start with a dash.
  lemma RunCommandRead(rootful: bool, e: Entry, mounts: seq<Mount>, image: string)
    ensures var words := ShellWords(CommandLine(RunArgs(rootful, e, mounts, image)));
            && words == Some(Texts(RunArgs(rootful, e, mounts, image)))
            && (ReadRun(words.value) == Some(RunSpec(true, Collect(map[], Options(e, mounts)), image, e.cmd))
                <==> !("-" <= image))
    ensures var options := Collect(map[], Options(e, mounts));
            && (forall o :: o in Options(e, mounts) ==> Given(options, o.flag) == o.values)
            && (forall flag :: !TakesValue(flag) ==> Given(options, flag) == [])
  {
    OptionsShape(e, mounts);
    RunLineRead(rootful, Options(e, mounts), image, e.cmd);
    OptionsGiven(Options(e, mounts));
  }

  lemma AllGiven(opts: seq<Opt>)
    requires Distinct(opts)
    ensures forall o :: o in opts ==> Given(Collect(map[], opts), o.flag) == o.values
  {
    forall o | o in opts
      ensures Given(Collect(map[], opts), o.flag) == o.values
    {
      var i :| 0 <= i < |opts| && opts[i] == o;
      CollectGiven(map[], opts, o.flag);
      assert [] + o.values == o.values;
    }
  }

  lemma OptionsGiven(opts: seq<Opt>)
    requires AllTakeValues(opts) && Distinct(opts)
    ensures forall o :: o in opts ==> Given(Collect(map[], opts), o.flag) == o.values
    ensures forall flag :: !TakesValue(flag) ==> Given(Collect(map[], opts), flag) == []
  {
    AllGiven(opts);
    forall flag | !TakesValue(flag)
      ensures Given(Collect(map[], opts), flag) == []
    {
      CollectGiven(map[], opts, flag);
    }
  }

  // ---------------------------------------------------------------- nothing is lost

  // Every label, every non-blank environment entry, every usable mount and every bound port is
  // carried with its multiplicity, and the order of the label, port and network maps plays no part:
  // the texts are the same for whatever order the keys are visited in.
  lemma NothingLost(e: Entry, mounts: seq<Mount>, keys: seq<string>, ports: seq<string>)
    requires MountOrder(mounts, e.mounts)
    requires multiset(keys) == multiset(e.labels.Keys) && multiset(ports) == multiset(e.ports.Keys)
    ensures PairTexts(e.labels) == FlatMap(PairText(e.labels), SortStrings(keys))
    ensures multiset(PairTexts(e.labels)) == multiset(FlatMap(PairText(e.labels), keys))
    ensures multiset(EnvTexts(e.env)) == multiset(FlatMap(EnvText, e.env))
    ensures multiset(VolumeTexts(mounts)) == multiset(VolumeTexts(e.mounts))
    ensures PortTexts(e.ports) == SortStrings(FlatMap(PortText(e.ports), ports))
    ensures multiset(PortTexts(e.ports)) == multiset(FlatMap(PortText(e.ports), ports))
  {
    SortedUnique(SortStrings(keys), SortedKeys(e.labels.Keys));
    FlatMapPermuted(PairText(e.labels), SortedKeys(e.labels.Keys), keys);
    FlatMapPermuted(EnvText, SortStrings(e.env), e.env);
    FlatMapPermuted(VolumeText, mounts, e.mounts);
    FlatMapPermuted(PortText(e.ports), SortedKeys(e.ports.Keys), ports);
    SortStable(FlatMap(PortText(e.ports), SortedKeys(e.ports.Keys)), FlatMap(PortText(e.ports), ports));
  }

  // ---------------------------------------------------------------- the update

  predicate ImageChar(c: char) {
    'a' <= c <= 'z' || 'A' <= c <= 'Z' || '0' <= c <= '9' || c in {'-', '_', '.', '/', ':', '@'}
  }

  function SanitizeImageRef(ref: string): string {
    if ref == [] then "" else (if ImageChar(ref[0]) then [ref[0]] else []) + SanitizeImageRef(ref[1..])
  }

  lemma {:induction false} SanitizedPlain(ref: string)
    ensures forall i :: 0 <= i < |SanitizeImageRef(ref)| ==> Plain(SanitizeImageRef(ref)[i])
  {
    if ref != [] {
      SanitizedPlain(ref[1..]);
    }
  }

  function Simple(rootful: bool, verb: string, arg: Arg): seq<Arg> {
    Podman(rootful) + [Fixed(verb), arg]
  }

  function ConnectArgs(rootful: bool, network: string, container: string): seq<Arg> {
    Podman(rootful) + [Fixed("network"), Fixed("connect"), Quoted(network), Quoted(container)]
  }

  function Connects(rootful: bool, networks: seq<string>, container: string): seq<string> {
    if networks == [] then []
    else [CommandLine(ConnectArgs(rootful, networks[0], container))] + Connects(rootful, networks[1..], container)
  }

  function PullCommand(rootful: bool, image: string): string {
    CommandLine(Simple(rootful, "pull", Fixed(SanitizeImageRef(image))))
  }

  function StopCommand(rootful: bool, e: Entry): string {
    CommandLine(Simple(rootful, "stop", Quoted(e.id)))
  }

  function RemoveCommand(rootful: bool, e: Entry): string {
    CommandLine(Simple(rootful, "rm", Quoted(e.id)))
  }

  // What happens before the container is recreated.
  function Prepare(rootful: bool, e: Entry, image: string): seq<string> {
    [PullCommand(rootful, image)] + (if e.running then [StopCommand(rootful, e)] else []) + [RemoveCommand(rootful, e)]
  }

  // The commands of a complete update, after the container has been inspected.
  ghost function Plan(rootful: bool, e: Entry, mounts: seq<Mount>, image: string): seq<string> {
    Prepare(rootful, e, image) + [CommandLine(RunArgs(rootful, e, mounts, image))]
    + Connects(rootful, ExtraNetworks(e), TrimPrefix(e.name, "/"))
  }

  // The networks a command attaches a container to, read as a shell and podman would.
  function Attaches(cmd: string): seq<string> {
    var words := ShellWords(cmd);
    if words.None? then []
    else if ReadRun(words.value).Some? then Given(ReadRun(words.value).value.options, "--network")
    else ReadConnect(words.value)
  }

  function ReadConnect(words: seq<string>): seq<string> {
    if |words| == 5 && ["podman", "network", "connect"] <= words then [words[3]]
    else if |words| == 6 && ["sudo", "podman", "network", "connect"] <= words then [words[4]]
    else []
  }

  lemma TextsTwo(a: Arg, b: Arg)
    ensures Texts([a, b]) == [a.text, b.text]
  {
    assert [a, b][1..] == [b] && [b][1..] == [];
    assert Texts([b]) == [b.text] + Texts([]);
  }

  lemma NotRun(words: seq<string>, rootful: bool, verb: string)
    requires verb != "run" && |words| > 2 && Texts(Podman(rootful)) + [verb] <= words
    ensures ReadRun(words).None?
  {
    PodmanTexts(rootful);
    assert words[if rootful then 2 else 1] == verb;
    assert words[0] == if rootful then "sudo" else "podman";
  }

  // Pulling, stopping and removing attach nothing.
  lemma SimpleAttaches(rootful: bool, verb: string, arg: Arg)
    requires verb in {"pull", "stop", "rm"} && (arg.Fixed? ==> PlainWord(arg.text))
    ensures Attaches(CommandLine(Simple(rootful, verb, arg))) == []
  {
    PodmanTexts(rootful);
    TextsTwo(Fixed(verb), arg);
    TextsConcat(Podman(rootful), [Fixed(verb), arg]);
    PrintableConcat(Podman(rootful), [Fixed(verb), arg]);
    CommandRoundTrip(Simple(rootful, verb, arg));
    var words := Texts(Simple(rootful, verb, arg));
    NotRun(words, rootful, verb);
  }

  lemma ConnectTexts(rootful: bool, network: string, container: string)
    ensures Texts(ConnectArgs(rootful, network, container))
         == (if rootful then ["sudo", "podman"] else ["podman"]) + ["network", "connect", network, container]
  {
    var a, b := [Fixed("network"), Fixed("connect")], [Quoted(network), Quoted(container)];
    PodmanTexts(rootful);
    TextsTwo(Fixed("network"), Fixed("connect"));
    TextsTwo(Quoted(network), Quoted(container));
    TextsConcat(a, b);
    TextsConcat(Podman(rootful), a + b);
    assert ConnectArgs(rootful, network, container) == Podman(rootful) + (a + b);
  }

  lemma ConnectVerb()
    ensures Printable([Fixed("network"), Fixed("connect")])
  {
  }

  lemma ConnectPrintable(rootful: bool, network: string, container: string)
    ensures Printable(ConnectArgs(rootful, network, container))
  {
    var a, b := [Fixed("network"), Fixed("connect")], [Quoted(network), Quoted(container)];
    PodmanTexts(rootful);
    ConnectVerb();
    PrintableConcat(a, b);
    PrintableConcat(Podman(rootful), a + b);
    assert ConnectArgs(rootful, network, container) == Podman(rootful) + (a + b);
  }

  lemma ConnectAttaches(rootful: bool, network: string, container: string)
    ensures Attaches(CommandLine(ConnectArgs(rootful, network, container))) == [network]
  {
    ConnectTexts(rootful, network, container);
    ConnectPrintable(rootful, network, container);
    CommandRoundTrip(ConnectArgs(rootful, network, container));
    PodmanTexts(rootful);
    NotRun(Texts(ConnectArgs(rootful, network, container)), rootful, "network");
  }

  lemma {:induction false} ConnectsAttach(rootful: bool, networks: seq<string>, container: string)
    ensures FlatMap(Attaches, Connects(rootful, networks, container)) == networks
  {
    if networks != [] {
      ConnectAttaches(rootful, networks[0], container);
      ConnectsAttach(rootful, networks[1..], container);
      var rest := Connects(rootful, networks[1..], container);
      assert Connects(rootful, networks, container)[1..] == rest;
    }
  }

  lemma RunAttaches(rootful: bool, e: Entry, mounts: seq<Mount>, image: string)
    requires !("-" <= image)
    ensures Attaches(CommandLine(RunArgs(rootful, e, mounts, image))) == RunNetworks(e)
  {
    RunCommandRead(rootful, e, mounts, image);
    var o := Opt("--network", RunNetworks(e));
    assert Options(e, mounts)[7] == o;
  }

  lemma {:induction false} FlatMapQuiet(f: string -> seq<string>, s: seq<string>)
    requires forall i :: 0 <= i < |s| ==> f(s[i]) == []
    ensures FlatMap(f, s) == []
  {
    if s != [] {
      FlatMapQuiet(f, s[1..]);
    }
  }

  lemma PrepareAttaches(rootful: bool, e: Entry, image: string)
    requires SanitizeImageRef(image) != ""
    ensures FlatMap(Attaches, Prepare(rootful, e, image)) == []
  {
    SanitizedPlain(image);
    SimpleAttaches(rootful, "pull", Fixed(SanitizeImageRef(image)));
    SimpleAttaches(rootful, "stop", Quoted(e.id));
    SimpleAttaches(rootful, "rm", Quoted(e.id));
    FlatMapQuiet(Attaches, Prepare(rootful, e, image));
  }

  lemma ThreeParts(f: string -> seq<string>, a: seq<string>, b: string, c: seq<string>)
    ensures FlatMap(f, a + [b] + c) == FlatMap(f, a) + f(b) + FlatMap(f, c)
  {
    FlatMapConcat(f, a + [b], c);
    FlatMapSnoc(f, a, b);
  }

  lemma Combine(f: string -> seq<string>, a: seq<string>, b: string, c: seq<string>, nets: seq<string>, extra: seq<string>)
    requires FlatMap(f, a) == [] && f(b) == nets && FlatMap(f, c) == extra
    ensures FlatMap(f, a + [b] + c) == nets + extra
  {
    ThreeParts(f, a, b, c);
  }

  // Executing the whole plan attaches the container to its networks.
  lemma PlanAttaches(rootful: bool, e: Entry, mounts: seq<Mount>, image: string)
    requires SanitizeImageRef(image) != "" && !("-" <= image)
    ensures FlatMap(Attaches, Plan(rootful, e, mounts, image)) == RunNetworks(e) + ExtraNetworks(e)
  {
    var nets, extra := RunNetworks(e), ExtraNetworks(e);
    var run := CommandLine(RunArgs(rootful, e, mounts, image));
    var connects := Connects(rootful, extra, TrimPrefix(e.name, "/"));
    assert FlatMap(Attaches, Prepare(rootful, e, image)) == [] by {
      PrepareAttaches(rootful, e, image);
    }
    assert Attaches(run) == nets by {
      RunAttaches(rootful, e, mounts, image);
    }
    assert FlatMap(Attaches, connects) == extra by {
      ConnectsAttach(rootful, extra, TrimPrefix(e.name, "/"));
    }
    Combine(Attaches, Prepare(rootful, e, image), run, connects, nets, extra);
  }

  // With the default network mode these are exactly the networks the container had, each once.
  lemma NetworksKept(e: Entry)
    requires DefaultNetworking(e)
    ensures multiset(RunNetworks(e) + ExtraNetworks(e)) == multiset(e.networks.Keys)
  {
    assert RunNetworks(e) + ExtraNetworks(e) == SortedKeys(e.networks.Keys);
  }

  // The update succeeds exactly when every command of the plan does; otherwise it stops after the
  // commands before the first failure.
  ghost predicate Completes(plan: seq<string>, outcome: nat -> bool, ok: bool, ran: seq<string>) {
    && ran <= plan
    && (forall n: nat :: n < |ran| ==> outcome(n))
    && (ok <==> ran == plan)
    && (!ok ==> !outcome(|ran|))
  }

  // updateStandaloneContainer after the inspection: the n-th command succeeds when outcome(n) holds,
  // and the first failure ends the update.  `ran` lists the commands that succeeded.
  method UpdateStandaloneContainer(rootful: bool, e: Entry, mounts: seq<Mount>, image: string, outcome: nat -> bool)
    returns (ok: bool, ran: seq<string>)
    requires MountOrder(mounts, e.mounts)
    ensures SanitizeImageRef(image) == "" ==> !ok && ran == []
    ensures SanitizeImageRef(image) != "" ==> Completes(Plan(rootful, e, mounts, image), outcome, ok, ran)
    ensures ok && DefaultNetworking(e) && !("-" <= image) ==>
              multiset(FlatMap(Attaches, ran)) == multiset(e.networks.Keys)
  {
    if SanitizeImageRef(image) == "" {
      return false, [];
    }
    var plan := Prepare(rootful, e, image);
    var run, networks := BuildStandaloneRunCommand(rootful, e, mounts, image);
    plan := plan + [run];
    plan := AddConnects(plan, rootful, networks, TrimPrefix(e.name, "/"));
    ok, ran := RunAll(plan, outcome);
    if ok && DefaultNetworking(e) && !("-" <= image) {
      PlanAttaches(rootful, e, mounts, image);
      NetworksKept(e);
    }
  }

  method AddConnects(before: seq<string>, rootful: bool, networks: seq<string>, container: string)
    returns (plan: seq<string>)
    ensures plan == before + Connects(rootful, networks, container)
  {
    plan := before;
    var i := 0;
    assert networks[0..] == networks;
    while i < |networks|
      invariant 0 <= i <= |networks|
      invariant plan + Connects(rootful, networks[i..], container) == before + Connects(rootful, networks, container)
    {
      assert networks[i..][1..] == networks[i + 1..];
      plan := plan + [CommandLine(ConnectArgs(rootful, networks[i], container))];
      i := i + 1;
    }
  }

  // Run the commands in order until one fails.
  method RunAll(cmds: seq<string>, outcome: nat -> bool) returns (ok: bool, ran: seq<string>)
    ensures Completes(cmds, outcome, ok, ran)
  {
    ran := [];
    for i := 0 to |cmds|
      invariant ran == cmds[..i]
      invariant forall n: nat :: n < i ==> outcome(n)
    {
      if !outcome(i) {
        return false, ran;
      }
      ran := ran + [cmds[i]];
    }
    ok := true;
  }
}
