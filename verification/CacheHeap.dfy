/** The podman cache on the heap: what it stores and what it lends are never the same objects. */
module CacheHeap {
  import opened Common

  type Host = string

  datatype Meta = Meta(
    id: string, name: string, image: string, state: string, status: string, created: int,
    host: string, manager: string, unit: string)
  datatype Port = Port(hostIp: string, hostPort: nat, containerPort: nat, protocol: string)
  datatype Network = Network(name: string, ip: string, gateway: string, mac: string)
  datatype Mount = Mount(kind: string, source: string, destination: string, rw: bool)
  datatype Stats = Stats(cpu: real, memory: nat, memoryLimit: nat, memoryPercent: real, pids: int, traffic: seq<nat>)
  datatype SystemInfo = SystemInfo(hostname: string, os: string, kernel: string, uptime: int, figures: seq<real>)

  // A shared struct, or a map.
  class Ref<T> {
    var it: T

    constructor (x: T)
      ensures it == x
    {
      it := x;
    }
  }

  type StatsMap = Ref?<map<string, Ref?<Stats>>>

  // A container as the source holds it: a struct with a map, slices and shared statistics inside.
  datatype Container = Container(
    meta: Meta, labels: Ref?<map<string, string>>, ports: array?<Port>, networks: array?<Network>,
    mounts: array?<Mount>, stats: Ref?<Stats>)

  // And as a value, nil kept apart from empty.
  datatype ContainerValue = ContainerValue(
    meta: Meta, labels: Option<map<string, string>>, ports: Option<seq<Port>>, networks: Option<seq<Network>>,
    mounts: Option<seq<Mount>>, stats: Option<Stats>)

  function Just(o: object?): set<object> {
    if o == null then {} else {o}
  }

  // Every mutable object a container reaches.
  function Objects(c: Container): set<object> {
    Just(c.labels) + Just(c.ports) + Just(c.networks) + Just(c.mounts) + Just(c.stats)
  }

  ghost function Pointed<T>(r: Ref?<T>): Option<T>
    reads r
  {
    if r == null then None else Some(r.it)
  }

  ghost function Slice<T>(a: array?<T>): Option<seq<T>>
    reads a
  {
    if a == null then None else Some(a[..])
  }

  ghost function Value(c: Container): ContainerValue
    reads Objects(c)
  {
    ContainerValue(c.meta, Pointed(c.labels), Slice(c.ports), Slice(c.networks), Slice(c.mounts), Pointed(c.stats))
  }

  // Everything in a list is inside `repr`.
  ghost predicate Within(s: seq<Container>, repr: set<object>) {
    forall i :: 0 <= i < |s| ==> Objects(s[i]) <= repr
  }

  ghost function Values(s: seq<Container>, repr: set<object>): seq<ContainerValue>
    requires Within(s, repr)
    reads repr
  {
    if s == [] then [] else Values(s[..|s| - 1], repr) + [Value(s[|s| - 1])]
  }

  lemma {:induction false} ValuesWider(s: seq<Container>, repr: set<object>, wider: set<object>)
    requires Within(s, repr) && repr <= wider
    ensures Within(s, wider) && Values(s, wider) == Values(s, repr)
  {
    if s != [] {
      ValuesWider(s[..|s| - 1], repr, wider);
    }
  }

  ghost predicate ListWithin(a: array?<Container>, repr: set<object>)
    reads a
  {
    a != null ==> a in repr && Within(a[..], repr)
  }

  ghost function ListValue(a: array?<Container>, repr: set<object>): Option<seq<ContainerValue>>
    requires ListWithin(a, repr)
    reads a, repr
  {
    if a == null then None else Some(Values(a[..], repr))
  }

  // ---------------------------------------------------------------- what a clone is

  // Appending an empty slice to a nil one gives nil.
  function Renil<T>(s: Option<seq<T>>): Option<seq<T>> {
    if s == Some([]) then None else s
  }

  function Copied(v: ContainerValue): ContainerValue {
    v.(ports := Renil(v.ports), networks := Renil(v.networks), mounts := Renil(v.mounts))
  }

  // A clone equals its source exactly when none of the three slices is empty without being nil; and a
  // clone is always such, so cloning again changes nothing.
  lemma CopiedExact(v: ContainerValue)
    ensures Copied(v) == v <==> v.ports != Some([]) && v.networks != Some([]) && v.mounts != Some([])
    ensures Copied(Copied(v)) == Copied(v)
  {
  }

  function CopiedAll(s: seq<ContainerValue>): seq<ContainerValue> {
    if s == [] then [] else CopiedAll(s[..|s| - 1]) + [Copied(s[|s| - 1])]
  }

  function CopiedList(v: Option<seq<ContainerValue>>): Option<seq<ContainerValue>> {
    if v.None? then None else Some(CopiedAll(v.value))
  }

  // ---------------------------------------------------------------- clone functions

  method CloneRef<T>(r: Ref?<T>) returns (c: Ref?<T>)
    ensures fresh(Just(c)) && Pointed(c) == Pointed(r)
  {
    if r == null {
      return null;
    }
    c := new Ref(r.it);
  }

  // A slice copied by appending it to nil, which leaves nil for an empty one.
  method CloneSlice<T>(a: array?<T>) returns (c: array?<T>)
    ensures fresh(Just(c)) && Slice(c) == Renil(Slice(a))
  {
    if a == null {
      return null;
    }
    if a.Length == 0 {
      assert a[..] == [];
      return null;
    }
    c := new T[a.Length](i requires 0 <= i < a.Length reads a => a[i]);
    assert c[..] == a[..];
  }

  method CloneContainer(c: Container) returns (d: Container)
    ensures fresh(Objects(d)) && Value(d) == Copied(Value(c))
  {
    var labels := CloneRef(c.labels);
    var ports, networks, mounts := CloneSlices(c);
    var stats := CloneRef(c.stats);
    d := Container(c.meta, labels, ports, networks, mounts, stats);
  }

  method CloneSlices(c: Container) returns (ports: array?<Port>, networks: array?<Network>, mounts: array?<Mount>)
    ensures fresh(Just(ports)) && fresh(Just(networks)) && fresh(Just(mounts))
    ensures Slice(ports) == Renil(Slice(c.ports)) && Slice(networks) == Renil(Slice(c.networks))
    ensures Slice(mounts) == Renil(Slice(c.mounts))
  {
    ports := CloneSlice(c.ports);
    networks := CloneSlice(c.networks);
    mounts := CloneSlice(c.mounts);
  }

  method CloneNext(c: Container, copies: seq<Container>, ghost made: set<object>)
    returns (copies': seq<Container>, ghost made': set<object>)
    requires Within(copies, made)
    ensures made <= made' && fresh(made' - made) && Within(copies', made')
    ensures Values(copies', made') == Values(copies, made) + [Copied(Value(c))]
  {
    var copy := CloneContainer(c);
    GrowWithin(copies, made, copy);
    copies', made' := copies + [copy], made + Objects(copy);
  }

  // The loop of cloneContainers: new objects throughout; `made` is all of them.
  method CloneElements(src: array<Container>, ghost repr: set<object>)
    returns (copies: seq<Container>, ghost made: set<object>)
    requires Within(src[..], repr)
    ensures fresh(made) && Within(copies, made)
    ensures Values(copies, made) == CopiedAll(Values(src[..], repr))
  {
    made, copies := {}, [];
    var i := 0;
    while i < src.Length
      invariant 0 <= i <= src.Length && Within(src[..i], repr)
      invariant fresh(made) && Within(copies, made)
      invariant Values(copies, made) == CopiedAll(Values(src[..i], repr))
    {
      copies, made := CloneNext(src[i], copies, made);
      assert src[..i + 1] == src[..i] + [src[i]];
      SnocValues(src[..i], repr, src[i]);
      i := i + 1;
    }
    assert src[..i] == src[..];
  }

  lemma SnocValues(s: seq<Container>, repr: set<object>, c: Container)
    requires Within(s, repr) && Objects(c) <= repr
    ensures Within(s + [c], repr)
    ensures Values(s + [c], repr) == Values(s, repr) + [Value(c)]
    ensures CopiedAll(Values(s + [c], repr)) == CopiedAll(Values(s, repr)) + [Copied(Value(c))]
  {
    assert (s + [c])[..|s|] == s;
    var v := Values(s, repr);
    assert (v + [Value(c)])[..|v|] == v;
  }

  lemma GrowWithin(s: seq<Container>, repr: set<object>, c: Container)
    requires Within(s, repr)
    ensures Within(s + [c], repr + Objects(c))
    ensures Values(s + [c], repr + Objects(c)) == Values(s, repr) + [Value(c)]
  {
    ValuesWider(s, repr, repr + Objects(c));
    SnocValues(s, repr + Objects(c), c);
  }

  method CloneContainers(src: array?<Container>, ghost repr: set<object>)
    returns (dst: array?<Container>, ghost made: set<object>)
    requires ListWithin(src, repr)
    ensures fresh(made) && ListWithin(dst, made) && ListValue(dst, made) == CopiedList(ListValue(src, repr))
  {
    made := {};
    if src == null {
      return null, {};
    }
    var copies;
    copies, made := CloneElements(src, repr);
    dst := ToArray(copies);
    ValuesWider(copies, made, made + {dst});
    made := made + {dst};
  }

  method ToArray(copies: seq<Container>) returns (dst: array<Container>)
    ensures fresh(dst) && dst[..] == copies
  {
    dst := new Container[|copies|](k requires 0 <= k < |copies| => copies[k]);
  }

  // ---------------------------------------------------------------- statistics

  ghost predicate MapWithin(m: map<string, Ref?<Stats>>, repr: set<object>) {
    forall k :: k in m ==> Just(m[k]) <= repr
  }

  ghost function MapValues(m: map<string, Ref?<Stats>>, repr: set<object>): map<string, Option<Stats>>
    requires MapWithin(m, repr)
    reads repr
  {
    map k | k in m :: Pointed(m[k])
  }

  ghost predicate StatsWithin(m: StatsMap, repr: set<object>)
    reads m
  {
    m != null ==> m in repr && MapWithin(m.it, repr)
  }

  ghost function StatsValue(m: StatsMap, repr: set<object>): Option<map<string, Option<Stats>>>
    requires StatsWithin(m, repr)
    reads m, repr
  {
    if m == null then None else Some(MapValues(m.it, repr))
  }

  // Ranging over the map in any order; an entry that is nil stays nil, and two keys that shared one
  // object get one each.
  method CloneStats(m: map<string, Ref?<Stats>>, ghost repr: set<object>)
    returns (copy: map<string, Ref?<Stats>>, ghost made: set<object>)
    requires MapWithin(m, repr)
    ensures fresh(made) && MapWithin(copy, made) && MapValues(copy, made) == MapValues(m, repr)
  {
    copy, made := map[], {};
    var left := m.Keys;
    while left != {}
      invariant left <= m.Keys && copy.Keys == m.Keys - left
      invariant fresh(made) && MapWithin(copy, made)
      invariant forall k :: k in copy ==> Pointed(copy[k]) == Pointed(m[k])
      decreases |left|
    {
      var k :| k in left;
      assert Just(m[k]) <= repr;
      var c := CloneRef(m[k]);
      copy, made := copy[k := c], made + Just(c);
      left := left - {k};
    }
  }

  method CloneStatsMap(src: StatsMap, ghost repr: set<object>) returns (dst: StatsMap, ghost made: set<object>)
    requires StatsWithin(src, repr)
    ensures fresh(made) && StatsWithin(dst, made) && StatsValue(dst, made) == StatsValue(src, repr)
  {
    made := {};
    if src == null {
      return null, {};
    }
    var copy;
    copy, made := CloneStats(src.it, repr);
    dst := new Ref(copy);
    assert MapValues(copy, made + {dst}) == MapValues(copy, made);
    made := made + {dst};
  }

  // ---------------------------------------------------------------- the cache

  // A host's entry; a time that was never set is None.
  datatype Entry = Entry(
    list: array?<Container>, listAt: Option<int>, stats: StatsMap, statsAt: Option<int>,
    info: Ref?<SystemInfo>, infoAt: Option<int>)

  datatype EntryValue = EntryValue(
    list: Option<seq<ContainerValue>>, listAt: Option<int>, stats: Option<map<string, Option<Stats>>>,
    statsAt: Option<int>, info: Option<SystemInfo>, infoAt: Option<int>)

  predicate Live(at: Option<int>, now: int, ttl: int) {
    at.Some? && now - at.value < ttl
  }

  ghost predicate EntryWithin(e: Entry, repr: set<object>)
    reads e.list, e.stats
  {
    ListWithin(e.list, repr) && StatsWithin(e.stats, repr) && Just(e.info) <= repr
  }

  ghost function ValueOf(e: Entry, repr: set<object>): EntryValue
    requires EntryWithin(e, repr)
    reads e.list, e.stats, e.info, repr
  {
    EntryValue(ListValue(e.list, repr), e.listAt, StatsValue(e.stats, repr), e.statsAt, Pointed(e.info), e.infoAt)
  }

  const BLANK := Entry(null, None, null, None, null, None)
  const BLANK_VALUE := EntryValue(None, None, None, None, None, None)

  function At(m: map<Host, EntryValue>, h: Host): EntryValue {
    if h in m then m[h] else BLANK_VALUE
  }

  lemma EntryWider(e: Entry, repr: set<object>, wider: set<object>)
    requires EntryWithin(e, repr) && repr <= wider
    ensures EntryWithin(e, wider) && ValueOf(e, wider) == ValueOf(e, repr)
  {
    if e.list != null {
      ValuesWider(e.list[..], repr, wider);
    }
  }

  class Cache {
    const ttl: int
    var hosts: map<Host, Entry>
    ghost var repr: set<object>  // everything the entries reach

    ghost predicate Valid()
      reads this, repr
    {
      this !in repr && forall h :: h in hosts ==> EntryInside(hosts[h])
    }

    ghost predicate EntryInside(e: Entry)
      reads this, repr
    {
      (e.list != null ==> e.list in repr) && (e.stats != null ==> e.stats in repr) && EntryWithin(e, repr)
    }

    ghost function Contents(): map<Host, EntryValue>
      requires Valid()
      reads this, repr
    {
      map h | h in hosts :: ValueOf(hosts[h], repr)
    }

    constructor (lifetime: int)
      ensures Valid() && Contents() == map[] && repr == {}
      ensures ttl == if lifetime > 0 then lifetime else 3
    {
      ttl := if lifetime <= 0 then 3 else lifetime;
      hosts, repr := map[], {};
    }

    method Invalidate(host: Host)
      requires Valid()
      modifies this
      ensures Valid() && repr == old(repr) && Contents() == old(Contents()) - {host}
    {
      hosts := hosts - {host};
    }

    // The read under the lock.  What is lent is new, and the cache is as before.
    method LookupContainers(host: Host, now: int) returns (hit: bool, list: array?<Container>, ghost lent: set<object>)
      requires Valid()
      ensures Valid() && Contents() == old(Contents())
      ensures hit == Live(At(Contents(), host).listAt, now, ttl)
      ensures fresh(lent) && ListWithin(list, lent)
      ensures hit ==> ListValue(list, lent) == CopiedList(At(Contents(), host).list)
    {
      hit, list, lent := false, null, {};
      if host in hosts && hosts[host].listAt.Some? && now - hosts[host].listAt.value < ttl {
        hit := true;
        list, lent := CloneContainers(hosts[host].list, repr);
      }
    }

    method Put(host: Host, e: Entry, ghost made: set<object>)
      requires Valid() && this !in made && EntryWithin(e, repr + made)
      modifies this
      ensures Valid() && repr == old(repr) + made && EntryWithin(e, repr)
      ensures Contents() == old(Contents())[host := ValueOf(e, repr)]
    {
      AllWider(hosts, repr, repr + made);
      hosts := hosts[host := e];
      repr := repr + made;
    }

    function EntryFor(host: Host): Entry
      reads this
    {
      if host in hosts then hosts[host] else BLANK
    }

    method PutList(host: Host, copy: array?<Container>, ghost made: set<object>, at: Option<int>)
      requires Valid() && this !in made && ListWithin(copy, made)
      modifies this
      ensures Valid() && repr == old(repr) + made
      ensures Contents() == old(Contents())[host := At(old(Contents()), host).(list := old(ListValue(copy, made)), listAt := at)]
    {
      var e := EntryFor(host);
      WithList(e, repr, copy, made, at);
      Put(host, e.(list := copy, listAt := at), made);
    }

    // The store under the lock: the cache keeps a clone, so it gains only new objects.
    method StoreContainers(host: Host, list: array?<Container>, now: int, ghost theirs: set<object>)
      requires Valid() && ListWithin(list, theirs)
      modifies this
      ensures Valid() && fresh(repr - old(repr)) && old(repr) <= repr
      ensures Contents() == old(Contents())[host := At(old(Contents()), host).(
                list := CopiedList(old(ListValue(list, theirs))), listAt := Some(now))]
    {
      var copy, made := CloneContainers(list, theirs);
      PutList(host, copy, made, Some(now));
    }

    // GetContainers: `fetched` is what the fetch returns, None an error; it is used only on a miss.
    // What the caller gets is never part of what the cache holds.
    method GetContainers(host: Host, now: int, fetched: Option<array?<Container>>, later: int, ghost theirs: set<object>)
      returns (ok: bool, list: array?<Container>, ghost lent: set<object>)
      requires Valid() && this !in theirs && theirs !! repr
      requires fetched.Some? ==> ListWithin(fetched.value, theirs)
      modifies this
      ensures Valid() && fresh(repr - old(repr)) && old(repr) <= repr
      ensures ok ==> ListWithin(list, lent) && this !in lent && lent !! repr
      ensures var hit := Live(At(old(Contents()), host).listAt, now, ttl);
              && ok == (hit || fetched.Some?)
              && (hit ==> fresh(lent) && ListValue(list, lent) == CopiedList(At(old(Contents()), host).list))
              && (ok && !hit ==> list == fetched.value && lent == theirs)
              && (hit || !ok ==> Contents() == old(Contents()))
              && (ok && !hit ==> Contents() == old(Contents())[host := At(old(Contents()), host).(
                    list := CopiedList(old(ListValue(fetched.value, theirs))), listAt := Some(later))])
    {
      ok, list, lent := LookupContainers(host, now);
      if !ok && fetched.Some? {
        StoreContainers(host, fetched.value, later, theirs);
        ok, list, lent := true, fetched.value, theirs;
      }
    }

    method LookupStats(host: Host, now: int) returns (hit: bool, stats: StatsMap, ghost lent: set<object>)
      requires Valid()
      ensures Valid() && Contents() == old(Contents())
      ensures hit == Live(At(Contents(), host).statsAt, now, ttl)
      ensures fresh(lent) && StatsWithin(stats, lent)
      ensures hit ==> StatsValue(stats, lent) == At(Contents(), host).stats
    {
      hit, stats, lent := false, null, {};
      if host in hosts && hosts[host].statsAt.Some? && now - hosts[host].statsAt.value < ttl {
        hit := true;
        stats, lent := CloneStatsMap(hosts[host].stats, repr);
      }
    }

    method PutStats(host: Host, copy: StatsMap, ghost made: set<object>, at: Option<int>)
      requires Valid() && this !in made && StatsWithin(copy, made)
      modifies this
      ensures Valid() && repr == old(repr) + made
      ensures Contents() == old(Contents())[host := At(old(Contents()), host).(stats := old(StatsValue(copy, made)), statsAt := at)]
    {
      var e := EntryFor(host);
      WithStats(e, repr, copy, made, at);
      Put(host, e.(stats := copy, statsAt := at), made);
    }

    method StoreStats(host: Host, stats: StatsMap, now: int, ghost theirs: set<object>)
      requires Valid() && StatsWithin(stats, theirs)
      modifies this
      ensures Valid() && fresh(repr - old(repr)) && old(repr) <= repr
      ensures Contents() == old(Contents())[host := At(old(Contents()), host).(
                stats := old(StatsValue(stats, theirs)), statsAt := Some(now))]
    {
      var copy, made := CloneStatsMap(stats, theirs);
      PutStats(host, copy, made, Some(now));
    }

    method GetStats(host: Host, now: int, fetched: Option<StatsMap>, later: int, ghost theirs: set<object>)
      returns (ok: bool, stats: StatsMap, ghost lent: set<object>)
      requires Valid() && this !in theirs && theirs !! repr
      requires fetched.Some? ==> StatsWithin(fetched.value, theirs)
      modifies this
      ensures Valid() && fresh(repr - old(repr)) && old(repr) <= repr
      ensures ok ==> StatsWithin(stats, lent) && this !in lent && lent !! repr
      ensures var hit := Live(At(old(Contents()), host).statsAt, now, ttl);
              && ok == (hit || fetched.Some?)
              && (hit ==> fresh(lent) && StatsValue(stats, lent) == At(old(Contents()), host).stats)
              && (ok && !hit ==> stats == fetched.value && lent == theirs)
              && (hit || !ok ==> Contents() == old(Contents()))
              && (ok && !hit ==> Contents() == old(Contents())[host := At(old(Contents()), host).(
                    stats := old(StatsValue(fetched.value, theirs)), statsAt := Some(later))])
    {
      ok, stats, lent := LookupStats(host, now);
      if !ok && fetched.Some? {
        StoreStats(host, fetched.value, later, theirs);
        ok, stats, lent := true, fetched.value, theirs;
      }
    }

    method GetSystemInfo(host: Host, now: int, fetched: Option<Ref?<SystemInfo>>, later: int)
      returns (ok: bool, info: Ref?<SystemInfo>)
      requires Valid() && (fetched.Some? ==> Just(fetched.value) !! repr)
      modifies this
      ensures Valid() && fresh(repr - old(repr)) && old(repr) <= repr
      ensures ok ==> Just(info) !! repr
      ensures var hit := Live(At(old(Contents()), host).infoAt, now, ttl);
              && ok == (hit || fetched.Some?)
              && (hit ==> fresh(Just(info)) && Pointed(info) == At(old(Contents()), host).info)
              && (ok && !hit ==> info == fetched.value)
              && (hit || !ok ==> Contents() == old(Contents()))
              && (ok && !hit ==> Contents() == old(Contents())[host := At(old(Contents()), host).(
                    info := old(Pointed(fetched.value)), infoAt := Some(later))])
    {
      ok, info := LookupSystemInfo(host, now);
      if !ok && fetched.Some? {
        StoreSystemInfo(host, fetched.value, later);
        ok, info := true, fetched.value;
      }
    }

    method LookupSystemInfo(host: Host, now: int) returns (hit: bool, info: Ref?<SystemInfo>)
      requires Valid()
      ensures Valid() && Contents() == old(Contents())
      ensures hit == Live(At(Contents(), host).infoAt, now, ttl)
      ensures fresh(Just(info))
      ensures hit ==> Pointed(info) == At(Contents(), host).info
    {
      hit, info := false, null;
      if host in hosts && hosts[host].infoAt.Some? && now - hosts[host].infoAt.value < ttl {
        hit := true;
        info := CloneRef(hosts[host].info);
      }
    }

    method StoreSystemInfo(host: Host, info: Ref?<SystemInfo>, now: int)
      requires Valid()
      modifies this
      ensures Valid() && fresh(repr - old(repr)) && old(repr) <= repr
      ensures Contents() == old(Contents())[host := At(old(Contents()), host).(info := old(Pointed(info)), infoAt := Some(now))]
    {
      var copy := CloneRef(info);
      PutInfo(host, copy, Some(now));
    }

    method PutInfo(host: Host, copy: Ref?<SystemInfo>, at: Option<int>)
      requires Valid()
      modifies this
      ensures Valid() && repr == old(repr) + Just(copy)
      ensures Contents() == old(Contents())[host := At(old(Contents()), host).(info := old(Pointed(copy)), infoAt := at)]
    {
      var e := EntryFor(host);
      WithInfo(e, repr, copy, at);
      Put(host, e.(info := copy, infoAt := at), Just(copy));
    }
  }

  lemma WithInfo(e: Entry, repr: set<object>, copy: Ref?<SystemInfo>, at: Option<int>)
    requires EntryWithin(e, repr)
    ensures var e' := e.(info := copy, infoAt := at);
            && EntryWithin(e', repr + Just(copy))
            && ValueOf(e', repr + Just(copy)) == ValueOf(e, repr).(info := Pointed(copy), infoAt := at)
  {
    EntryWider(e, repr, repr + Just(copy));
  }

  lemma AllWider(hosts: map<Host, Entry>, repr: set<object>, wider: set<object>)
    requires repr <= wider && forall h :: h in hosts ==> EntryWithin(hosts[h], repr)
    ensures forall h :: h in hosts ==> EntryWithin(hosts[h], wider) && ValueOf(hosts[h], wider) == ValueOf(hosts[h], repr)
  {
    forall h | h in hosts
      ensures EntryWithin(hosts[h], wider) && ValueOf(hosts[h], wider) == ValueOf(hosts[h], repr)
    {
      EntryWider(hosts[h], repr, wider);
    }
  }

  lemma WithStats(e: Entry, repr: set<object>, copy: StatsMap, made: set<object>, at: Option<int>)
    requires EntryWithin(e, repr) && StatsWithin(copy, made)
    ensures var e' := e.(stats := copy, statsAt := at);
            && EntryWithin(e', repr + made)
            && ValueOf(e', repr + made) == ValueOf(e, repr).(stats := StatsValue(copy, made), statsAt := at)
  {
    EntryWider(e, repr, repr + made);
    if copy != null {
      assert MapValues(copy.it, repr + made) == MapValues(copy.it, made);
    }
  }

  lemma WithList(e: Entry, repr: set<object>, copy: array?<Container>, made: set<object>, at: Option<int>)
    requires EntryWithin(e, repr) && ListWithin(copy, made)
    ensures var e' := e.(list := copy, listAt := at);
            && EntryWithin(e', repr + made)
            && ValueOf(e', repr + made) == ValueOf(e, repr).(list := ListValue(copy, made), listAt := at)
  {
    EntryWider(e, repr, repr + made);
    if copy != null {
      ValuesWider(copy[..], made, repr + made);
    }
  }
}
