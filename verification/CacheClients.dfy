/** Callers of the cache that go on writing to whatever they were given, or gave it. */
module CacheClients {
  import opened Common
  import opened CacheHeap

  type Table = Ref<map<string, Ref?<Stats>>>

  // ---------------------------------------------------------------- what a caller can write

  // A write through something the caller reaches.  `list`, `table` and `info` choose among what it has,
  // `at` an element of a list and `slot` an element of a slice in it.
  datatype Write =
    | SetMeta(list: nat, at: nat, meta: Meta)
    | SetLabels(list: nat, at: nat, labels: map<string, string>)
    | SetPort(list: nat, at: nat, slot: nat, port: Port)
    | SetNetwork(list: nat, at: nat, slot: nat, network: Network)
    | SetMount(list: nat, at: nat, slot: nat, mount: Mount)
    | SetStats(list: nat, at: nat, stats: Stats)
    | CopyElement(list: nat, at: nat, from: nat, source: nat)
    | Attach(list: nat, at: nat, table: nat, key: string)
    | SetEntry(table: nat, key: string, stats: Stats)
    | ShareEntry(table: nat, key: string, other: nat, entry: string)
    | DropEntry(table: nat, key: string)
    | SetInfo(info: nat, value: SystemInfo)

  ghost predicate ListsWithin(lists: seq<array<Container>>, mine: set<object>)
    reads lists
  {
    forall k :: 0 <= k < |lists| ==> lists[k] in mine && Within(lists[k][..], mine)
  }

  ghost predicate TablesWithin(tables: seq<Table>, mine: set<object>)
    reads tables
  {
    forall k :: 0 <= k < |tables| ==> tables[k] in mine && MapWithin(tables[k].it, mine)
  }

  lemma MoreLists(lists: seq<array<Container>>, mine: set<object>, list: array?<Container>, more: set<object>)
    requires ListsWithin(lists, mine) && ListWithin(list, more)
    ensures ListsWithin(if list == null then lists else lists + [list], mine + more)
  {
    forall k | 0 <= k < |lists|
      ensures Within(lists[k][..], mine + more)
    {
      assert Within(lists[k][..], mine);
    }
  }

  lemma MoreTables(tables: seq<Table>, mine: set<object>, table: StatsMap, more: set<object>)
    requires TablesWithin(tables, mine) && StatsWithin(table, more)
    ensures TablesWithin(if table == null then tables else tables + [table], mine + more)
  {
    forall k | 0 <= k < |tables|
      ensures MapWithin(tables[k].it, mine + more)
    {
      assert MapWithin(tables[k].it, mine);
    }
  }

  lemma Replaced(s: seq<Container>, t: seq<Container>, j: nat, c: Container, mine: set<object>)
    requires Within(s, mine) && Objects(c) <= mine && (t == s || (j < |s| && t == s[j := c]))
    ensures Within(t, mine)
  {
  }

  // A caller, with the lists, tables and system information it holds; `mine` is all they reach.
  class Client {
    var lists: seq<array<Container>>
    var tables: seq<Table>
    var infos: seq<Ref<SystemInfo>>
    ghost var mine: set<object>

    ghost predicate Valid()
      reads this, mine
    {
      && this !in mine
      && (forall k :: 0 <= k < |lists| ==> lists[k] in mine) && ListsWithin(lists, mine)
      && (forall k :: 0 <= k < |tables| ==> tables[k] in mine) && TablesWithin(tables, mine)
      && (forall k :: 0 <= k < |infos| ==> infos[k] in mine)
    }

    method Keep(list: array?<Container>, ghost lent: set<object>)
      requires Valid() && ListWithin(list, lent) && this !in lent
      modifies this
      ensures Valid() && mine == old(mine) + lent
    {
      MoreLists(lists, mine, list, lent);
      MoreTables(tables, mine, null, lent);
      if list != null {
        lists := lists + [list];
      }
      mine := mine + lent;
    }

    method KeepTable(table: StatsMap, ghost lent: set<object>)
      requires Valid() && StatsWithin(table, lent) && this !in lent
      modifies this
      ensures Valid() && mine == old(mine) + lent
    {
      MoreTables(tables, mine, table, lent);
      MoreLists(lists, mine, null, lent);
      if table != null {
        tables := tables + [table];
      }
      mine := mine + lent;
    }

    method KeepInfo(info: Ref?<SystemInfo>)
      requires Valid()
      modifies this
      ensures Valid() && mine == old(mine) + Just(info)
    {
      MoreTables(tables, mine, null, Just(info));
      MoreLists(lists, mine, null, Just(info));
      if info != null {
        infos := infos + [info];
      }
      mine := mine + Just(info);
    }

    method PutElement(l: nat, j: nat, c: Container)
      requires Valid() && l < |lists| && j < lists[l].Length && Objects(c) <= mine
      modifies lists[l]
      ensures Valid() && lists[l][j] == c
    {
      var list := lists[l];
      list[j] := c;
      forall k | 0 <= k < |lists|
        ensures Within(lists[k][..], mine)
      {
        assert lists[k] == list ==> lists[k][..] == old(lists[k][..])[j := c];
        Replaced(old(lists[k][..]), lists[k][..], j, c, mine);
      }
    }

    method PutTable(t: nat, m: map<string, Ref?<Stats>>)
      requires Valid() && t < |tables| && MapWithin(m, mine)
      modifies tables[t]
      ensures Valid() && tables[t].it == m
    {
      tables[t].it := m;
    }

    // A write through a field of one element.
    method Through(c: Container, w: Write)
      requires Valid() && Objects(c) <= mine
      modifies Objects(c)
      ensures Valid()
    {
      match w {
        case SetLabels(_, _, labels) =>
          if c.labels != null {
            c.labels.it := labels;
          }
        case SetPort(_, _, slot, port) =>
          if c.ports != null && slot < c.ports.Length {
            c.ports[slot] := port;
          }
        case SetNetwork(_, _, slot, network) =>
          if c.networks != null && slot < c.networks.Length {
            c.networks[slot] := network;
          }
        case SetMount(_, _, slot, mount) =>
          if c.mounts != null && slot < c.mounts.Length {
            c.mounts[slot] := mount;
          }
        case SetStats(_, _, stats) =>
          if c.stats != null {
            c.stats.it := stats;
          }
        case _ =>
      }
    }

    lemma Reaches(l: nat, j: nat)
      requires Valid() && l < |lists| && j < lists[l].Length
      ensures Objects(lists[l][j]) <= mine
    {
      assert Objects(lists[l][..][j]) <= mine;
    }

    // A write that names nothing the caller has does nothing.
    method WriteList(w: Write)
      requires Valid() && !(w.SetEntry? || w.ShareEntry? || w.DropEntry? || w.SetInfo?)
      modifies mine
      ensures Valid()
    {
      var l, j := w.list, w.at;
      if l >= |lists| || j >= lists[l].Length {
        return;
      }
      var c := lists[l][j];
      Reaches(l, j);
      if w.SetMeta? {
        PutElement(l, j, c.(meta := w.meta));
      } else if w.CopyElement? {
        if w.from < |lists| && w.source < lists[w.from].Length {
          Reaches(w.from, w.source);
          PutElement(l, j, lists[w.from][w.source]);
        }
      } else if w.Attach? {
        if w.table < |tables| && w.key in tables[w.table].it {
          assert MapWithin(tables[w.table].it, mine);
          PutElement(l, j, c.(stats := tables[w.table].it[w.key]));
        }
      } else {
        Through(c, w);
      }
    }

    method WriteTable(w: Write)
      requires Valid() && (w.SetEntry? || w.ShareEntry? || w.DropEntry?)
      modifies mine
      ensures Valid()
    {
      if w.table >= |tables| {
        return;
      }
      var m := tables[w.table].it;
      assert MapWithin(m, mine);
      match w {
        case SetEntry(_, key, stats) =>
          if key in m && m[key] != null {
            assert Just(m[key]) <= mine;
            SetRef(m[key], stats);
          }
        case ShareEntry(t, key, other, entry) =>
          if other < |tables| && entry in tables[other].it {
            assert MapWithin(tables[other].it, mine);
            PutTable(t, m[key := tables[other].it[entry]]);
          }
        case DropEntry(t, key) => PutTable(t, m - {key});
      }
    }

    method SetRef(r: Ref<Stats>, stats: Stats)
      requires Valid()
      modifies r
      ensures Valid() && r.it == stats
    {
      r.it := stats;
    }

    method Write(w: Write)
      requires Valid()
      modifies mine
      ensures Valid()
    {
      if w.SetInfo? {
        if w.info < |infos| {
          infos[w.info].it := w.value;
        }
      } else if w.SetEntry? || w.ShareEntry? || w.DropEntry? {
        WriteTable(w);
      } else {
        WriteList(w);
      }
    }
  }

  // ---------------------------------------------------------------- runs

  // What a fetch gives: an error, nil, or something the caller holds and may go on writing to.
  datatype Fetched = Fails | Nil | Own(index: nat)

  datatype Action =
    | GetList(host: Host, now: int, fetched: Fetched, later: int)
    | GetTable(host: Host, now: int, fetched: Fetched, later: int)
    | GetInfo(host: Host, now: int, fetched: Fetched, later: int)
    | Writes(w: Write)
    | Drop(host: Host)

  // What an action does to the cache, as values.
  datatype Effect =
    | Nothing
    | ListStored(host: Host, list: Option<seq<ContainerValue>>, at: int)
    | StatsStored(host: Host, stats: Option<map<string, Option<Stats>>>, at: int)
    | InfoStored(host: Host, info: Option<SystemInfo>, at: int)
    | Dropped(host: Host)

  datatype Answer =
    | Quiet
    | Missed
    | HitList(list: Option<seq<ContainerValue>>)
    | HitStats(stats: Option<map<string, Option<Stats>>>)
    | HitInfo(info: Option<SystemInfo>)

  predicate Hit(a: Answer) {
    a.HitList? || a.HitStats? || a.HitInfo?
  }

  type Held = map<Host, EntryValue>

  function Applied(m: Held, e: Effect): Held {
    match e
    case Nothing => m
    case ListStored(host, list, at) => m[host := At(m, host).(list := list, listAt := Some(at))]
    case StatsStored(host, stats, at) => m[host := At(m, host).(stats := stats, statsAt := Some(at))]
    case InfoStored(host, info, at) => m[host := At(m, host).(info := info, infoAt := Some(at))]
    case Dropped(host) => m - {host}
  }

  function Replay(m: Held, log: seq<Effect>): Held {
    if log == [] then m else Applied(Replay(m, log[..|log| - 1]), log[|log| - 1])
  }

  // A miss stores for this host and time, and nothing when the fetch fails.
  predicate Stores(stored: bool, none: bool, fetched: Fetched) {
    match fetched
    case Fails => !stored
    case Nil => stored && none
    case Own(_) => true
  }

  // How an action, its effect and its answer go together when the cache holds `m`: a hit answers what
  // is held and changes nothing, a write changes nothing, a miss stores under its own host.
  predicate Explains(m: Held, a: Action, e: Effect, ans: Answer, ttl: int) {
    match a
    case GetList(host, now, fetched, later) =>
      if Live(At(m, host).listAt, now, ttl) then e == Nothing && ans == HitList(CopiedList(At(m, host).list))
      else ans == Missed && (e == Nothing || (e.ListStored? && e.host == host && e.at == later))
           && Stores(e.ListStored?, e.ListStored? && e.list.None?, fetched)
    case GetTable(host, now, fetched, later) =>
      if Live(At(m, host).statsAt, now, ttl) then e == Nothing && ans == HitStats(At(m, host).stats)
      else ans == Missed && (e == Nothing || (e.StatsStored? && e.host == host && e.at == later))
           && Stores(e.StatsStored?, e.StatsStored? && e.stats.None?, fetched)
    case GetInfo(host, now, fetched, later) =>
      if Live(At(m, host).infoAt, now, ttl) then e == Nothing && ans == HitInfo(At(m, host).info)
      else ans == Missed && (e == Nothing || (e.InfoStored? && e.host == host && e.at == later))
           && Stores(e.InfoStored?, e.InfoStored? && e.info.None?, fetched)
    case Writes(_) => e == Nothing && ans == Quiet
    case Drop(host) => e == Dropped(host) && ans == Quiet
  }

  // The cache and the caller reach nothing in common.
  ghost predicate Apart(cache: Cache, client: Client)
    reads cache, cache.repr, client, client.mine
  {
    cache.Valid() && client.Valid() && cache !in client.mine && client !in cache.repr && client.mine !! cache.repr
  }

  method DoList(cache: Cache, client: Client, host: Host, now: int, fetched: Fetched, later: int)
    returns (ghost e: Effect, ghost ans: Answer, ghost lent: set<object>)
    requires Apart(cache, client)
    modifies cache, client
    ensures Apart(cache, client) && old(client.mine) <= client.mine && fresh(client.mine - old(client.mine))
    ensures Explains(old(cache.Contents()), GetList(host, now, fetched, later), e, ans, cache.ttl)
    ensures cache.Contents() == Applied(old(cache.Contents()), e)
    ensures lent <= client.mine && (Hit(ans) ==> fresh(lent))
  {
    var given: Option<array?<Container>> := None;
    match fetched {
      case Fails =>
      case Nil => given := Some(null);
      case Own(i) =>
        if i < |client.lists| {
          given := Some(client.lists[i]);
        }
    }
    ghost var hit := Live(At(cache.Contents(), host).listAt, now, cache.ttl);
    assert given.Some? ==> ListWithin(given.value, client.mine);
    ghost var value := if given.Some? then CopiedList(ListValue(given.value, client.mine)) else None;
    var ok, list;
    ok, list, lent := cache.GetContainers(host, now, given, later, client.mine);
    e := if hit || !ok then Nothing else ListStored(host, value, later);
    ans := if hit then HitList(ListValue(list, lent)) else Missed;
    if ok {
      client.Keep(list, lent);
    } else {
      lent := {};
    }
  }

  method DoTable(cache: Cache, client: Client, host: Host, now: int, fetched: Fetched, later: int)
    returns (ghost e: Effect, ghost ans: Answer, ghost lent: set<object>)
    requires Apart(cache, client)
    modifies cache, client
    ensures Apart(cache, client) && old(client.mine) <= client.mine && fresh(client.mine - old(client.mine))
    ensures Explains(old(cache.Contents()), GetTable(host, now, fetched, later), e, ans, cache.ttl)
    ensures cache.Contents() == Applied(old(cache.Contents()), e)
    ensures lent <= client.mine && (Hit(ans) ==> fresh(lent))
  {
    var given: Option<StatsMap> := None;
    match fetched {
      case Fails =>
      case Nil => given := Some(null);
      case Own(i) =>
        if i < |client.tables| {
          given := Some(client.tables[i]);
        }
    }
    ghost var hit := Live(At(cache.Contents(), host).statsAt, now, cache.ttl);
    assert given.Some? ==> StatsWithin(given.value, client.mine);
    ghost var value := if given.Some? then StatsValue(given.value, client.mine) else None;
    var ok, table;
    ok, table, lent := cache.GetStats(host, now, given, later, client.mine);
    e := if hit || !ok then Nothing else StatsStored(host, value, later);
    ans := if hit then HitStats(StatsValue(table, lent)) else Missed;
    if ok {
      client.KeepTable(table, lent);
    } else {
      lent := {};
    }
  }

  method DoInfo(cache: Cache, client: Client, host: Host, now: int, fetched: Fetched, later: int)
    returns (ghost e: Effect, ghost ans: Answer, ghost lent: set<object>)
    requires Apart(cache, client)
    modifies cache, client
    ensures Apart(cache, client) && old(client.mine) <= client.mine && fresh(client.mine - old(client.mine))
    ensures Explains(old(cache.Contents()), GetInfo(host, now, fetched, later), e, ans, cache.ttl)
    ensures cache.Contents() == Applied(old(cache.Contents()), e)
    ensures lent <= client.mine && (Hit(ans) ==> fresh(lent))
  {
    var given: Option<Ref?<SystemInfo>> := None;
    match fetched {
      case Fails =>
      case Nil => given := Some(null);
      case Own(i) =>
        if i < |client.infos| {
          given := Some(client.infos[i]);
        }
    }
    ghost var hit := Live(At(cache.Contents(), host).infoAt, now, cache.ttl);
    ghost var value := if given.Some? then Pointed(given.value) else None;
    var ok, info := cache.GetSystemInfo(host, now, given, later);
    e := if hit || !ok then Nothing else InfoStored(host, value, later);
    ans := if hit then HitInfo(Pointed(info)) else Missed;
    lent := {};
    if ok {
      client.KeepInfo(info);
      lent := Just(info);
    }
  }

  method DoAction(cache: Cache, client: Client, a: Action) returns (ghost e: Effect, ghost ans: Answer, ghost lent: set<object>)
    requires Apart(cache, client)
    modifies cache, client, client.mine
    ensures Apart(cache, client) && old(client.mine) <= client.mine && fresh(client.mine - old(client.mine))
    ensures Explains(old(cache.Contents()), a, e, ans, cache.ttl)
    ensures cache.Contents() == Applied(old(cache.Contents()), e)
    ensures lent <= client.mine && (Hit(ans) ==> fresh(lent))
  {
    match a {
      case GetList(host, now, fetched, later) => e, ans, lent := DoList(cache, client, host, now, fetched, later);
      case GetTable(host, now, fetched, later) => e, ans, lent := DoTable(cache, client, host, now, fetched, later);
      case GetInfo(host, now, fetched, later) => e, ans, lent := DoInfo(cache, client, host, now, fetched, later);
      case Writes(w) =>
        client.Write(w);
        e, ans, lent := Nothing, Quiet, {};
      case Drop(host) =>
        cache.Invalidate(host);
        e, ans, lent := Dropped(host), Quiet, {};
    }
  }

  // Every action of the script goes with its effect and answer, the cache holding what the effects
  // before it left.
  ghost predicate Explained(m: Held, script: seq<Action>, log: seq<Effect>, answers: seq<Answer>, ttl: int) {
    && |log| == |answers| <= |script|
    && forall i :: 0 <= i < |log| ==> Explains(Replay(m, log[..i]), script[i], log[i], answers[i], ttl)
  }

  lemma ExplainedMore(m: Held, script: seq<Action>, log: seq<Effect>, answers: seq<Answer>, ttl: int, e: Effect, ans: Answer)
    requires Explained(m, script, log, answers, ttl) && |log| < |script|
    requires Explains(Replay(m, log), script[|log|], e, ans, ttl)
    ensures Explained(m, script, log + [e], answers + [ans], ttl)
    ensures Replay(m, log + [e]) == Applied(Replay(m, log), e)
  {
    assert (log + [e])[..|log|] == log;
    forall i | 0 <= i < |log| + 1
      ensures Explains(Replay(m, (log + [e])[..i]), script[i], (log + [e])[i], (answers + [ans])[i], ttl)
    {
      if i < |log| {
        assert (log + [e])[..i] == log[..i];
      }
    }
  }

  // Everything lent is apart from what the cache holds, and what a hit lends is apart from everything
  // lent before it.
  ghost predicate Separate(lent: seq<set<object>>, answers: seq<Answer>, mine: set<object>) {
    && |lent| == |answers|
    && (forall i :: 0 <= i < |lent| ==> lent[i] <= mine)
    && (forall i, j :: 0 <= i < j < |lent| && Hit(answers[j]) ==> lent[i] !! lent[j])
  }

  lemma SeparateMore(lent: seq<set<object>>, answers: seq<Answer>, mine: set<object>, more: set<object>, ans: Answer, wider: set<object>)
    requires Separate(lent, answers, mine) && mine <= wider && more <= wider && (Hit(ans) ==> more !! mine)
    ensures Separate(lent + [more], answers + [ans], wider)
  {
  }

  // Any sequence of gets of listings, statistics and system information, hits and misses alike, of
  // writes through anything the caller reaches, and of invalidations.  What the cache holds at the end
  // is what the stores and invalidations alone would leave, every hit gave what was held, and what was
  // lent is disjoint from the cache and from everything lent before.
  method AnyClient(cache: Cache, client: Client, script: seq<Action>)
    returns (ghost log: seq<Effect>, ghost answers: seq<Answer>, ghost lent: seq<set<object>>)
    requires Apart(cache, client)
    modifies cache, client, client.mine
    ensures Apart(cache, client) && |log| == |script|
    ensures Explained(old(cache.Contents()), script, log, answers, cache.ttl)
    ensures cache.Contents() == Replay(old(cache.Contents()), log)
    ensures Separate(lent, answers, client.mine)
    ensures forall i :: 0 <= i < |lent| ==> cache !in lent[i] && lent[i] !! cache.repr
  {
    log, answers, lent := [], [], [];
    var i := 0;
    while i < |script|
      invariant 0 <= i <= |script| && |log| == i
      invariant Apart(cache, client) && fresh(client.mine - old(client.mine))
      invariant Explained(old(cache.Contents()), script, log, answers, cache.ttl)
      invariant cache.Contents() == Replay(old(cache.Contents()), log)
      invariant Separate(lent, answers, client.mine)
    {
      ghost var before := client.mine;
      ghost var e, ans, more := DoAction(cache, client, script[i]);
      ExplainedMore(old(cache.Contents()), script, log, answers, cache.ttl, e, ans);
      SeparateMore(lent, answers, before, more, ans, client.mine);
      log, answers, lent := log + [e], answers + [ans], lent + [more];
      i := i + 1;
    }
  }

  // ---------------------------------------------------------------- what was stored

  // Element by element, in order.
  lemma {:induction false} CopiedAt(s: seq<ContainerValue>, i: nat)
    requires i < |s|
    ensures |CopiedAll(s)| == |s| && CopiedAll(s)[i] == Copied(s[i])
  {
    if |s| > 1 {
      CopiedAt(s[..|s| - 1], if i < |s| - 1 then i else 0);
    }
  }

  lemma {:induction false} CopiedTwice(s: seq<ContainerValue>)
    ensures CopiedAll(CopiedAll(s)) == CopiedAll(s)
  {
    if s != [] {
      var init := s[..|s| - 1];
      CopiedTwice(init);
      assert CopiedAll(s)[..|CopiedAll(s)| - 1] == CopiedAll(init);
    }
  }

  method WriteAll(cache: Cache, client: Client, writes: seq<Write>)
    requires Apart(cache, client)
    modifies client.mine
    ensures Apart(cache, client) && cache.Contents() == old(cache.Contents())
  {
    var i := 0;
    while i < |writes|
      invariant Apart(cache, client) && cache.Contents() == old(cache.Contents())
    {
      client.Write(writes[i]);
      i := i + 1;
    }
  }

  // A caller that keeps writing to the listing whose clone was stored, and to anything else it has: a
  // hit still gives the listing as it was when it was stored.
  method StoredAsItWas(cache: Cache, client: Client, l: nat, host: Host, at: int, now: int, writes: seq<Write>)
    returns (hit: bool, again: array?<Container>, ghost lent: set<object>)
    requires Apart(cache, client) && l < |client.lists|
    modifies cache, client.mine
    ensures cache.Valid() && hit == (now - at < cache.ttl) && ListWithin(again, lent)
    ensures hit ==> ListValue(again, lent) == CopiedList(Some(old(Values(client.lists[l][..], client.mine))))
  {
    ghost var was := Values(client.lists[l][..], client.mine);
    cache.StoreContainers(host, client.lists[l], at, client.mine);
    WriteAll(cache, client, writes);
    hit, again, lent := cache.LookupContainers(host, now);
    CopiedTwice(was);
  }

  // ---------------------------------------------------------------- how long it is kept

  // A cache made with a lifetime, something of each kind stored at one time and asked for at another:
  // each is served exactly when it is younger than the lifetime, three seconds when none is given.
  method KeptFor(lifetime: int, client: Client, l: nat, t: nat, i: nat, host: Host, at: int, now: int)
    returns (list: bool, stats: bool, info: bool)
    requires client.Valid() && l < |client.lists| && t < |client.tables| && i < |client.infos|
    ensures var young := now - at < if lifetime > 0 then lifetime else 3; list == young && stats == young && info == young
  {
    var cache := new Cache(lifetime);
    cache.StoreContainers(host, client.lists[l], at, client.mine);
    cache.StoreStats(host, client.tables[t], at, client.mine);
    cache.StoreSystemInfo(host, client.infos[i], at);
    var aList, aTable, anInfo;
    ghost var lent;
    list, aList, lent := cache.LookupContainers(host, now);
    stats, aTable, lent := cache.LookupStats(host, now);
    info, anInfo := cache.LookupSystemInfo(host, now);
  }
}
