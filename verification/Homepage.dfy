/** Reading homepage configuration files: the parsers over a decoded YAML tree. */
module Homepage {
  import opened Common
  import opened Strings
  import opened Links
  import opened LinkOrder
  import opened Import

  // A YAML node: a mapping holds its keys and values alternately.  `Other` stands for the remaining
  // kinds, such as aliases; every kind but the two collections carries a text.
  datatype Node = Scalar(text: string) | Sequence(items: seq<Node>) | Mapping(content: seq<Node>) | Other(text: string)

  datatype File = Bookmarks | Services

  function Value(n: Node): string {
    if n.Scalar? || n.Other? then n.text else ""
  }

  datatype Entry = Entry(key: Node, value: Node)

  // The key-value pairs of a mapping; an unpaired last key is ignored.
  function Entries(content: seq<Node>): seq<Entry> {
    if |content| < 2 then [] else [Entry(content[0], content[1])] + Entries(content[2..])
  }

  function FirstMapping(n: Node): Option<Node> {
    if n.Mapping? then Some(n)
    else if n.Sequence? && |n.items| > 0 && n.items[0].Mapping? then Some(n.items[0])
    else None
  }

  function Lookup(entries: seq<Entry>, key: string): string {
    if entries == [] then ""
    else if Value(entries[0].key) == key then TrimSpace(Value(entries[0].value))
    else Lookup(entries[1..], key)
  }

  function ScalarOf(n: Option<Node>, key: string): string {
    if n.None? || !n.value.Mapping? then "" else Lookup(Entries(n.value.content), key)
  }

  // mappingScalar: the trimmed value of the first entry with this key, or nothing.
  method MappingScalar(n: Option<Node>, key: string) returns (r: string)
    ensures r == ScalarOf(n, key)
  {
    if n.None? || !n.value.Mapping? {
      return "";
    }
    var content := n.value.content;
    var i := 0;
    assert content[0..] == content;
    while i + 1 < |content|
      invariant 0 <= i <= |content|
      invariant Lookup(Entries(content[i..]), key) == Lookup(Entries(content), key)
    {
      assert content[i..][2..] == content[i + 2..];
      if Value(content[i]) == key {
        return TrimSpace(Value(content[i + 1]));
      }
      i := i + 2;
    }
    return "";
  }

  // ---------------------------------------------------------------- what a file means

  function Source(file: File): string {
    if file.Bookmarks? then "homepage:bookmarks" else "homepage:services"
  }

  function Props(file: File, n: Node): Option<Node> {
    if file.Bookmarks? then FirstMapping(n) else Some(n)
  }

  function LinkOf(file: File, name: string, order: int, title: string, props: Option<Node>): Mutation {
    Mutation(None, name, title, ScalarOf(props, "href"),
             if file.Bookmarks? then "" else ScalarOf(props, "description"),
             ScalarOf(props, "icon"), "_blank", "viewer", "", order, "", Source(file))
  }

  function EntryLinks(file: File, name: string, order: int): Entry -> seq<Mutation> {
    (e: Entry) =>
      if ScalarOf(Props(file, e.value), "href") == "" then []
      else [LinkOf(file, name, order, Value(e.key), Props(file, e.value))]
  }

  function ItemLinks(file: File, name: string, order: int, n: Node): seq<Mutation> {
    if n.Mapping? then FlatMap(EntryLinks(file, name, order), Entries(n.content)) else []
  }

  function Order(group: nat, item: nat): int {
    (group + 1) * 1000 + (item + 1) * 10
  }

  function ItemsFrom(file: File, name: string, group: nat, items: seq<Node>, item: nat): seq<Mutation> {
    if items == [] then []
    else ItemLinks(file, name, Order(group, item), items[0]) + ItemsFrom(file, name, group, items[1..], item + 1)
  }

  function Headed(file: File, group: nat): Entry -> seq<Mutation> {
    (e: Entry) => if e.value.Sequence? then ItemsFrom(file, Value(e.key), group, e.value.items, 0) else []
  }

  function GroupLinks(file: File, group: nat, n: Node): seq<Mutation> {
    if n.Mapping? then FlatMap(Headed(file, group), Entries(n.content)) else []
  }

  function GroupsFrom(file: File, groups: seq<Node>, group: nat): seq<Mutation> {
    if groups == [] then [] else GroupLinks(file, group, groups[0]) + GroupsFrom(file, groups[1..], group + 1)
  }

  // The links of a file, or None when the document is not a sequence of groups.
  function FileLinks(file: File, root: Node): Option<seq<Mutation>> {
    if root.Sequence? then Some(GroupsFrom(file, root.items, 0)) else None
  }

  // ---------------------------------------------------------------- the nested loops

  lemma EntryStep(f: Entry -> seq<Mutation>, content: seq<Node>, j: nat, done: seq<Mutation>)
    requires j + 1 < |content|
    ensures done + FlatMap(f, Entries(content[j..]))
         == done + f(Entry(content[j], content[j + 1])) + FlatMap(f, Entries(content[j + 2..]))
  {
    assert content[j..][2..] == content[j + 2..];
    var e, rest := Entry(content[j], content[j + 1]), Entries(content[j + 2..]);
    assert Entries(content[j..]) == [e] + rest;
    assert ([e] + rest)[1..] == rest;
  }

  lemma EntryEnd(f: Entry -> seq<Mutation>, content: seq<Node>, j: nat, done: seq<Mutation>)
    requires j <= |content| && j + 1 >= |content|
    ensures done + FlatMap(f, Entries(content[j..])) == done
  {
  }

  method LinksOfEntry(file: File, name: string, order: int, key: Node, value: Node, links: seq<Mutation>)
    returns (r: seq<Mutation>)
    ensures r == links + EntryLinks(file, name, order)(Entry(key, value))
  {
    r := links;
    var title := Value(key);
    var props := if file.Bookmarks? then FirstMapping(value) else Some(value);
    var href := MappingScalar(props, "href");
    if href == "" {
      return;
    }
    var icon := MappingScalar(props, "icon");
    var description := "";
    if file.Services? {
      description := MappingScalar(props, "description");
    }
    r := r + [Mutation(None, name, title, href, description, icon, "_blank", "viewer", "", order, "", Source(file))];
  }

  method AppendItem(file: File, name: string, order: int, n: Node, links: seq<Mutation>) returns (r: seq<Mutation>)
    ensures r == links + ItemLinks(file, name, order, n)
  {
    r := links;
    if !n.Mapping? {
      return;
    }
    var j := 0;
    ghost var f := EntryLinks(file, name, order);
    assert n.content[0..] == n.content;
    while j + 1 < |n.content|
      invariant 0 <= j <= |n.content|
      invariant r + FlatMap(f, Entries(n.content[j..])) == links + FlatMap(f, Entries(n.content))
    {
      EntryStep(f, n.content, j, r);
      r := LinksOfEntry(file, name, order, n.content[j], n.content[j + 1], r);
      j := j + 2;
    }
    EntryEnd(f, n.content, j, r);
  }

  lemma ItemStep(file: File, name: string, group: nat, items: seq<Node>, k: nat, done: seq<Mutation>)
    requires k < |items|
    ensures done + ItemsFrom(file, name, group, items[k..], k)
         == done + ItemLinks(file, name, Order(group, k), items[k]) + ItemsFrom(file, name, group, items[k + 1..], k + 1)
  {
    assert items[k..][1..] == items[k + 1..];
  }

  method AppendItems(file: File, name: string, group: nat, items: seq<Node>, links: seq<Mutation>) returns (r: seq<Mutation>)
    ensures r == links + ItemsFrom(file, name, group, items, 0)
  {
    r := links;
    assert items[0..] == items;
    for k := 0 to |items|
      invariant r + ItemsFrom(file, name, group, items[k..], k) == links + ItemsFrom(file, name, group, items, 0)
    {
      ItemStep(file, name, group, items, k, r);
      r := AppendItem(file, name, (group + 1) * 1000 + (k + 1) * 10, items[k], r);
    }
    assert r + ItemsFrom(file, name, group, [], |items|) == r;
  }

  method AppendHeaded(file: File, group: nat, key: Node, value: Node, links: seq<Mutation>) returns (r: seq<Mutation>)
    ensures r == links + Headed(file, group)(Entry(key, value))
  {
    r := links;
    if value.Sequence? {
      r := AppendItems(file, Value(key), group, value.items, r);
    }
  }

  method AppendGroup(file: File, group: nat, n: Node, links: seq<Mutation>) returns (r: seq<Mutation>)
    ensures r == links + GroupLinks(file, group, n)
  {
    r := links;
    if !n.Mapping? {
      return;
    }
    var i := 0;
    ghost var f := Headed(file, group);
    assert n.content[0..] == n.content;
    while i + 1 < |n.content|
      invariant 0 <= i <= |n.content|
      invariant r + FlatMap(f, Entries(n.content[i..])) == links + FlatMap(f, Entries(n.content))
    {
      EntryStep(f, n.content, i, r);
      r := AppendHeaded(file, group, n.content[i], n.content[i + 1], r);
      i := i + 2;
    }
    EntryEnd(f, n.content, i, r);
  }

  lemma GroupStep(file: File, groups: seq<Node>, g: nat, done: seq<Mutation>)
    requires g < |groups|
    ensures done + GroupsFrom(file, groups[g..], g)
         == done + GroupLinks(file, g, groups[g]) + GroupsFrom(file, groups[g + 1..], g + 1)
  {
    assert groups[g..][1..] == groups[g + 1..];
  }

  // parseHomepageBookmarks and parseHomepageServices.
  method ParseHomepage(file: File, root: Node) returns (links: Option<seq<Mutation>>)
    ensures links == FileLinks(file, root)
  {
    if !root.Sequence? {
      return None;
    }
    var r: seq<Mutation> := [];
    ghost var all := GroupsFrom(file, root.items, 0);
    assert root.items[0..] == root.items && [] + all == all;
    for g := 0 to |root.items|
      invariant r + GroupsFrom(file, root.items[g..], g) == all
    {
      GroupStep(file, root.items, g, r);
      r := AppendGroup(file, g, root.items[g], r);
    }
    assert r + GroupsFrom(file, [], |root.items|) == r;
    links := Some(r);
  }

  // ---------------------------------------------------------------- what the parsers guarantee

  ghost predicate Span(s: seq<Mutation>, lo: int, hi: int) {
    forall i :: 0 <= i < |s| ==> lo <= s[i].sortOrder <= hi
  }

  // Links of one heading: one category name, one source, no category id.
  ghost predicate Uniform(s: seq<Mutation>, source: string, name: string) {
    forall i :: 0 <= i < |s| ==> Of(s[i], source, name) && s[i].categoryId.None?
  }

  lemma RisingConcat(a: seq<Mutation>, b: seq<Mutation>, lo: int, mid: int, mid': int, hi: int)
    requires Rising(a) && Rising(b) && Span(a, lo, mid) && Span(b, mid', hi) && lo <= mid <= mid' <= hi
    ensures Rising(a + b) && Span(a + b, lo, hi)
  {
  }

  lemma {:induction false} EntriesShape(file: File, name: string, order: int, entries: seq<Entry>)
    ensures var r := FlatMap(EntryLinks(file, name, order), entries);
            Rising(r) && Span(r, order, order) && Uniform(r, Source(file), name)
  {
    if entries != [] {
      EntriesShape(file, name, order, entries[1..]);
      RisingConcat(EntryLinks(file, name, order)(entries[0]),
                   FlatMap(EntryLinks(file, name, order), entries[1..]), order, order, order, order);
    }
  }

  lemma ItemShape(file: File, name: string, order: int, item: Node)
    ensures var r := ItemLinks(file, name, order, item);
            Rising(r) && Span(r, order, order) && Uniform(r, Source(file), name)
  {
    if item.Mapping? {
      EntriesShape(file, name, order, Entries(item.content));
    }
  }

  lemma UniformConcat(a: seq<Mutation>, b: seq<Mutation>, source: string, name: string)
    requires Uniform(a, source, name) && Uniform(b, source, name)
    ensures Uniform(a + b, source, name)
  {
  }

  lemma {:induction false} ItemsShape(file: File, name: string, group: nat, items: seq<Node>, k: nat)
    ensures var r := ItemsFrom(file, name, group, items, k);
            Rising(r) && Span(r, Order(group, k), Order(group, k + |items|)) && Uniform(r, Source(file), name)
    decreases |items|
  {
    if items != [] {
      var first := ItemLinks(file, name, Order(group, k), items[0]);
      var rest := ItemsFrom(file, name, group, items[1..], k + 1);
      ItemShape(file, name, Order(group, k), items[0]);
      ItemsShape(file, name, group, items[1..], k + 1);
      RisingConcat(first, rest, Order(group, k), Order(group, k), Order(group, k + 1), Order(group, k + |items|));
      UniformConcat(first, rest, Source(file), name);
    }
  }

  ghost predicate AllFrom(s: seq<Mutation>, source: string) {
    forall i :: 0 <= i < |s| ==> s[i].source == source && Parsed(s[i])
  }

  lemma {:induction false} HeadedFrom(file: File, group: nat, entries: seq<Entry>)
    ensures AllFrom(FlatMap(Headed(file, group), entries), Source(file))
  {
    if entries != [] {
      HeadedFrom(file, group, entries[1..]);
      var e := entries[0];
      if e.value.Sequence? {
        ItemsShape(file, Value(e.key), group, e.value.items, 0);
        assert AllFrom(Headed(file, group)(e), Source(file));
      }
    }
  }

  // Every parsed link has its file's source, no category id and a sort order that is not zero.
  lemma {:induction false} FileFrom(file: File, groups: seq<Node>, group: nat)
    ensures AllFrom(GroupsFrom(file, groups, group), Source(file))
    decreases |groups|
  {
    if groups != [] {
      FileFrom(file, groups[1..], group + 1);
      if groups[0].Mapping? {
        HeadedFrom(file, group, Entries(groups[0].content));
      }
    }
  }

  // ---------------------------------------------------------------- document order

  // How many headings of the mapping bear this name.
  function Headings(entries: seq<Entry>, name: string): nat {
    if entries == [] then 0 else (if Value(entries[0].key) == name then 1 else 0) + Headings(entries[1..], name)
  }

  function GroupHeadings(n: Node, name: string): nat {
    if n.Mapping? then Headings(Entries(n.content), name) else 0
  }

  function AllHeadings(groups: seq<Node>, name: string): nat {
    if groups == [] then 0 else GroupHeadings(groups[0], name) + AllHeadings(groups[1..], name)
  }

  lemma {:induction false} UniformSection(s: seq<Mutation>, source: string, name: string, other: string)
    requires Uniform(s, source, name)
    ensures Section(s, source, other) == if other == name then s else []
  {
    if s != [] {
      UniformSection(s[1..], source, name, other);
      assert s == [s[0]] + s[1..];
    }
  }

  lemma HeadedSection(file: File, group: nat, e: Entry, name: string)
    ensures Section(Headed(file, group)(e), Source(file), name)
         == if Value(e.key) == name then Headed(file, group)(e) else []
    ensures Rising(Headed(file, group)(e))
  {
    if e.value.Sequence? {
      ItemsShape(file, Value(e.key), group, e.value.items, 0);
      UniformSection(Headed(file, group)(e), Source(file), Value(e.key), name);
    }
  }

  lemma SectionCons(file: File, group: nat, entries: seq<Entry>, name: string)
    requires entries != []
    ensures Section(FlatMap(Headed(file, group), entries), Source(file), name)
         == (if Value(entries[0].key) == name then Headed(file, group)(entries[0]) else [])
            + Section(FlatMap(Headed(file, group), entries[1..]), Source(file), name)
  {
    HeadedSection(file, group, entries[0], name);
    FlatMapConcat(Pick(Source(file), name), Headed(file, group)(entries[0]), FlatMap(Headed(file, group), entries[1..]));
  }
}
