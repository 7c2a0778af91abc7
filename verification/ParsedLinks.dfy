/** What a parsed link says: every field, from its place in the document; and that none is missing. */
module ParsedLinks {
  import opened Common
  import opened Strings
  import opened Links
  import opened Homepage

  // ---------------------------------------------------------------- fields of a mapping

  // The value under a key: the first one, trimmed, and nothing when there is none or no mapping.
  predicate IsField(n: Option<Node>, key: string, v: string) {
    if n.None? || !n.value.Mapping? then v == ""
    else
      var c := n.value.content;
      || (v == "" && forall i :: 0 <= i < |c| / 2 ==> Value(c[2 * i]) != key)
      || exists i :: 0 <= i < |c| / 2 && Value(c[2 * i]) == key && v == TrimSpace(Value(c[2 * i + 1]))
                     && forall j :: 0 <= j < i ==> Value(c[2 * j]) != key
  }

  lemma {:induction false} EntriesAt(content: seq<Node>, j: nat)
    requires j < |content| / 2
    ensures |Entries(content)| == |content| / 2 && Entries(content)[j] == Entry(content[2 * j], content[2 * j + 1])
    decreases |content|
  {
    var rest := content[2..];
    assert |rest| / 2 == |content| / 2 - 1;
    if |rest| >= 2 {
      EntriesAt(rest, if j == 0 then 0 else j - 1);
    } else {
      assert Entries(rest) == [];
    }
  }

  lemma {:induction false} LookupIs(entries: seq<Entry>, key: string)
    ensures (forall i :: 0 <= i < |entries| ==> Value(entries[i].key) != key) ==> Lookup(entries, key) == ""
    ensures (exists i :: 0 <= i < |entries| && Value(entries[i].key) == key) ==>
              exists i :: 0 <= i < |entries| && Value(entries[i].key) == key && Lookup(entries, key) == TrimSpace(Value(entries[i].value))
                          && forall j :: 0 <= j < i ==> Value(entries[j].key) != key
    decreases |entries|
  {
    if entries != [] && Value(entries[0].key) != key {
      var rest := entries[1..];
      LookupIs(rest, key);
      assert forall i :: 0 <= i < |rest| ==> rest[i] == entries[i + 1];
      if exists i :: 0 <= i < |entries| && Value(entries[i].key) == key {
        var i :| 0 <= i < |entries| && Value(entries[i].key) == key;
        assert Value(rest[i - 1].key) == key;
        var k :| 0 <= k < |rest| && Value(rest[k].key) == key && Lookup(rest, key) == TrimSpace(Value(rest[k].value))
                 && forall j :: 0 <= j < k ==> Value(rest[j].key) != key;
        assert forall j :: 0 <= j < k + 1 ==> Value(entries[j].key) != key by {
          forall j | 0 <= j < k + 1
            ensures Value(entries[j].key) != key
          {
            assert j > 0 ==> entries[j] == rest[j - 1];
          }
        }
        assert entries[k + 1] == rest[k];
      }
    }
  }

  lemma FieldIs(n: Option<Node>, key: string)
    ensures IsField(n, key, ScalarOf(n, key))
  {
    if n.Some? && n.value.Mapping? {
      var c := n.value.content;
      var entries := Entries(c);
      forall j | 0 <= j < |c| / 2
        ensures |entries| == |c| / 2 && entries[j] == Entry(c[2 * j], c[2 * j + 1])
      {
        EntriesAt(c, j);
      }
      EntriesCount(c);
      LookupIs(entries, key);
      if i :| 0 <= i < |entries| && Value(entries[i].key) == key {
        var k :| 0 <= k < |entries| && Value(entries[k].key) == key && Lookup(entries, key) == TrimSpace(Value(entries[k].value))
                 && forall j :: 0 <= j < k ==> Value(entries[j].key) != key;
        assert Value(c[2 * k]) == key;
        assert forall j :: 0 <= j < k ==> entries[j].key == c[2 * j];
      } else {
        assert forall i :: 0 <= i < |c| / 2 ==> entries[i].key == c[2 * i];
      }
    }
  }

  lemma EntriesCount(content: seq<Node>)
    ensures |Entries(content)| == |content| / 2
  {
    if |content| >= 2 {
      EntriesAt(content, 0);
    }
  }

  // ---------------------------------------------------------------- one link

  // Where a link's properties are: in the value itself, or, for bookmarks, in the first mapping of a list.
  predicate IsProps(file: File, value: Node, props: Option<Node>) {
    if file.Services? || value.Mapping? then props == Some(value)
    else if value.Sequence? && value.items != [] && value.items[0].Mapping? then props == Some(value.items[0])
    else props == None
  }

  // The link says what the entry says: key and value of the entry, heading, group and item.
  ghost predicate Says(l: Mutation, file: File, heading: string, group: nat, item: nat, key: Node, value: Node) {
    exists props: Option<Node> ::
      && IsProps(file, value, props)
      && l.categoryId == None && l.categoryName == heading && l.title == Value(key)
      && IsField(props, "href", l.url) && l.url != "" && IsField(props, "icon", l.icon)
      && (if file.Services? then IsField(props, "description", l.description) else l.description == "")
      && l.target == "_blank" && l.role == "viewer" && l.healthUrl == "" && l.status == ""
      && l.sortOrder == 1000 * (group + 1) + 10 * (item + 1)
      && l.source == (if file.Bookmarks? then "homepage:bookmarks" else "homepage:services")
  }

  lemma LinkSays(file: File, name: string, group: nat, item: nat, e: Entry)
    requires ScalarOf(Props(file, e.value), "href") != ""
    ensures Says(LinkOf(file, name, Order(group, item), Value(e.key), Props(file, e.value)), file, name, group, item, e.key, e.value)
  {
    var props := Props(file, e.value);
    FieldIs(props, "href");
    FieldIs(props, "icon");
    FieldIs(props, "description");
    assert IsProps(file, e.value, props);
  }

  // ---------------------------------------------------------------- where links come from

  // The k-th of a concatenation is the m-th of its first or of its second part.
  lemma InParts(a: seq<Mutation>, b: seq<Mutation>, k: nat)
    requires k < |a + b|
    ensures k < |a| ==> (a + b)[k] == a[k]
    ensures k >= |a| ==> k - |a| < |b| && (a + b)[k] == b[k - |a|]
  {
  }

  lemma {:induction false} FromSome(f: Entry -> seq<Mutation>, s: seq<Entry>, k: nat) returns (i: nat, m: nat)
    requires k < |FlatMap(f, s)|
    ensures i < |s| && m < |f(s[i])| && FlatMap(f, s)[k] == f(s[i])[m]
    decreases |s|
  {
    InParts(f(s[0]), FlatMap(f, s[1..]), k);
    if k < |f(s[0])| {
      i, m := 0, k;
    } else {
      i, m := FromSome(f, s[1..], k - |f(s[0])|);
      i := i + 1;
    }
  }

  lemma {:induction false} FromAny(f: Entry -> seq<Mutation>, s: seq<Entry>, i: nat, m: nat) returns (k: nat)
    requires i < |s| && m < |f(s[i])|
    ensures k < |FlatMap(f, s)| && FlatMap(f, s)[k] == f(s[i])[m]
    decreases |s|
  {
    if i == 0 {
      k := m;
    } else {
      var j := FromAny(f, s[1..], i - 1, m);
      k := |f(s[0])| + j;
    }
  }

  // What a loop over nodes collects when each contributes by its position.
  function Indexed(f: (nat, Node) -> seq<Mutation>, nodes: seq<Node>, first: nat): seq<Mutation> {
    if nodes == [] then [] else f(first, nodes[0]) + Indexed(f, nodes[1..], first + 1)
  }

  lemma {:induction false} IndexedOf(f: (nat, Node) -> seq<Mutation>, nodes: seq<Node>, first: nat, k: nat) returns (i: nat, m: nat)
    requires k < |Indexed(f, nodes, first)|
    ensures i < |nodes| && m < |f(first + i, nodes[i])| && Indexed(f, nodes, first)[k] == f(first + i, nodes[i])[m]
    decreases |nodes|
  {
    var head := f(first, nodes[0]);
    InParts(head, Indexed(f, nodes[1..], first + 1), k);
    if k < |head| {
      i, m := 0, k;
    } else {
      var j;
      j, m := IndexedOf(f, nodes[1..], first + 1, k - |head|);
      assert nodes[1..][j] == nodes[j + 1] && first + 1 + j == first + (j + 1);
      i := j + 1;
    }
  }

  lemma {:induction false} IndexedIn(f: (nat, Node) -> seq<Mutation>, nodes: seq<Node>, first: nat, i: nat, m: nat) returns (k: nat)
    requires i < |nodes| && m < |f(first + i, nodes[i])|
    ensures k < |Indexed(f, nodes, first)| && Indexed(f, nodes, first)[k] == f(first + i, nodes[i])[m]
    decreases |nodes|
  {
    if i == 0 {
      k := m;
    } else {
      assert nodes[1..][i - 1] == nodes[i] && first + 1 + (i - 1) == first + i;
      var j := IndexedIn(f, nodes[1..], first + 1, i - 1, m);
      k := |f(first, nodes[0])| + j;
    }
  }

  function ItemAt(file: File, name: string, group: nat): (nat, Node) -> seq<Mutation> {
    (i: nat, n: Node) => ItemLinks(file, name, Order(group, i), n)
  }

  lemma {:induction false} ItemsIndexed(file: File, name: string, group: nat, items: seq<Node>, first: nat)
    ensures ItemsFrom(file, name, group, items, first) == Indexed(ItemAt(file, name, group), items, first)
    decreases |items|
  {
    if items != [] {
      ItemsIndexed(file, name, group, items[1..], first + 1);
    }
  }

  function GroupAt(file: File): (nat, Node) -> seq<Mutation> {
    (g: nat, n: Node) => GroupLinks(file, g, n)
  }

  lemma {:induction false} GroupsIndexed(file: File, groups: seq<Node>, group: nat)
    ensures GroupsFrom(file, groups, group) == Indexed(GroupAt(file), groups, group)
    decreases |groups|
  {
    if groups != [] {
      GroupsIndexed(file, groups[1..], group + 1);
    }
  }

  // A place in a document: entry j of item i under heading h of group g.
  predicate Place(groups: seq<Node>, g: nat, h: nat, i: nat, j: nat) {
    && g < |groups| && groups[g].Mapping? && h < |groups[g].content| / 2
    && groups[g].content[2 * h + 1].Sequence? && i < |groups[g].content[2 * h + 1].items|
    && groups[g].content[2 * h + 1].items[i].Mapping? && j < |groups[g].content[2 * h + 1].items[i].content| / 2
  }

  ghost predicate SaysAt(l: Mutation, file: File, groups: seq<Node>, g: nat, h: nat, i: nat, j: nat)
    requires Place(groups, g, h, i, j)
  {
    var item := groups[g].content[2 * h + 1].items[i].content;
    Says(l, file, Value(groups[g].content[2 * h]), g, i, item[2 * j], item[2 * j + 1])
  }

  lemma EntryTraced(file: File, name: string, group: nat, item: nat, n: Node, m: nat) returns (j: nat)
    requires m < |ItemLinks(file, name, Order(group, item), n)|
    ensures n.Mapping? && j < |n.content| / 2
    ensures Says(ItemLinks(file, name, Order(group, item), n)[m], file, name, group, item, n.content[2 * j], n.content[2 * j + 1])
  {
    var x;
    j, x := FromSome(EntryLinks(file, name, Order(group, item)), Entries(n.content), m);
    EntriesCount(n.content);
    EntriesAt(n.content, j);
    LinkSays(file, name, group, item, Entries(n.content)[j]);
  }

  lemma HeadedTraced(file: File, group: nat, e: Entry, y: nat) returns (i: nat, x: nat)
    requires y < |Headed(file, group)(e)|
    ensures e.value.Sequence? && i < |e.value.items| && x < |ItemAt(file, Value(e.key), group)(i, e.value.items[i])|
    ensures Headed(file, group)(e)[y] == ItemAt(file, Value(e.key), group)(i, e.value.items[i])[x]
  {
    ItemsIndexed(file, Value(e.key), group, e.value.items, 0);
    i, x := IndexedOf(ItemAt(file, Value(e.key), group), e.value.items, 0, y);
    assert 0 + i == i;
  }

  lemma HeadingTraced(file: File, group: nat, n: Node, m: nat) returns (h: nat, y: nat)
    requires m < |GroupLinks(file, group, n)|
    ensures n.Mapping? && h < |n.content| / 2 && y < |Headed(file, group)(Entry(n.content[2 * h], n.content[2 * h + 1]))|
    ensures GroupLinks(file, group, n)[m] == Headed(file, group)(Entry(n.content[2 * h], n.content[2 * h + 1]))[y]
  {
    h, y := FromSome(Headed(file, group), Entries(n.content), m);
    EntriesCount(n.content);
    EntriesAt(n.content, h);
  }

  // Every parsed link says what some place in the document says.
  lemma LinkTraced(file: File, groups: seq<Node>, k: nat) returns (g: nat, h: nat, i: nat, j: nat)
    requires k < |GroupsFrom(file, groups, 0)|
    ensures Place(groups, g, h, i, j) && SaysAt(GroupsFrom(file, groups, 0)[k], file, groups, g, h, i, j)
  {
    var m, y, x;
    GroupsIndexed(file, groups, 0);
    g, m := IndexedOf(GroupAt(file), groups, 0, k);
    assert 0 + g == g;
    h, y := HeadingTraced(file, g, groups[g], m);
    i, x := HeadedTraced(file, g, Entry(groups[g].content[2 * h], groups[g].content[2 * h + 1]), y);
    j := EntryTraced(file, Value(groups[g].content[2 * h]), g, i, groups[g].content[2 * h + 1].items[i], x);
  }

  lemma EntryLinked(file: File, name: string, group: nat, item: nat, n: Node, j: nat, props: Option<Node>, href: string) returns (m: nat)
    requires n.Mapping? && j < |n.content| / 2
    requires IsProps(file, n.content[2 * j + 1], props) && IsField(props, "href", href) && href != ""
    ensures m < |ItemLinks(file, name, Order(group, item), n)|
    ensures Says(ItemLinks(file, name, Order(group, item), n)[m], file, name, group, item, n.content[2 * j], n.content[2 * j + 1])
  {
    EntriesCount(n.content);
    EntriesAt(n.content, j);
    var e := Entries(n.content)[j];
    FieldIs(props, "href");
    OneField(props, "href", href, ScalarOf(props, "href"));
    assert Props(file, e.value) == props;
    LinkSays(file, name, group, item, e);
    assert EntryLinks(file, name, Order(group, item))(e) == [LinkOf(file, name, Order(group, item), Value(e.key), props)];
    m := FromAny(EntryLinks(file, name, Order(group, item)), Entries(n.content), j, 0);
  }

  lemma HeadedLinked(file: File, group: nat, e: Entry, i: nat, x: nat) returns (y: nat)
    requires e.value.Sequence? && i < |e.value.items| && x < |ItemAt(file, Value(e.key), group)(i, e.value.items[i])|
    ensures y < |Headed(file, group)(e)|
    ensures Headed(file, group)(e)[y] == ItemAt(file, Value(e.key), group)(i, e.value.items[i])[x]
  {
    assert 0 + i == i;
    ItemsIndexed(file, Value(e.key), group, e.value.items, 0);
    y := IndexedIn(ItemAt(file, Value(e.key), group), e.value.items, 0, i, x);
  }

  lemma HeadingLinked(file: File, group: nat, n: Node, h: nat, y: nat) returns (m: nat)
    requires n.Mapping? && h < |n.content| / 2 && y < |Headed(file, group)(Entry(n.content[2 * h], n.content[2 * h + 1]))|
    ensures m < |GroupLinks(file, group, n)|
    ensures GroupLinks(file, group, n)[m] == Headed(file, group)(Entry(n.content[2 * h], n.content[2 * h + 1]))[y]
  {
    EntriesCount(n.content);
    EntriesAt(n.content, h);
    m := FromAny(Headed(file, group), Entries(n.content), h, y);
  }

  lemma GroupReached(file: File, groups: seq<Node>, g: nat, m: nat) returns (k: nat)
    requires g < |groups| && m < |GroupAt(file)(g, groups[g])|
    ensures k < |GroupsFrom(file, groups, 0)| && GroupsFrom(file, groups, 0)[k] == GroupAt(file)(g, groups[g])[m]
  {
    assert 0 + g == g;
    GroupsIndexed(file, groups, 0);
    k := IndexedIn(GroupAt(file), groups, 0, g, m);
  }

  lemma HeadingReached(file: File, groups: seq<Node>, g: nat, h: nat, y: nat) returns (k: nat)
    requires g < |groups| && groups[g].Mapping? && h < |groups[g].content| / 2
    requires y < |Headed(file, g)(Entry(groups[g].content[2 * h], groups[g].content[2 * h + 1]))|
    ensures k < |GroupsFrom(file, groups, 0)|
    ensures GroupsFrom(file, groups, 0)[k] == Headed(file, g)(Entry(groups[g].content[2 * h], groups[g].content[2 * h + 1]))[y]
  {
    var m := HeadingLinked(file, g, groups[g], h, y);
    k := GroupReached(file, groups, g, m);
  }

  // And every place with an address has its link.
  lemma PlaceLinked(file: File, groups: seq<Node>, g: nat, h: nat, i: nat, j: nat, props: Option<Node>, href: string) returns (k: nat)
    requires Place(groups, g, h, i, j)
    requires IsProps(file, groups[g].content[2 * h + 1].items[i].content[2 * j + 1], props) && IsField(props, "href", href) && href != ""
    ensures k < |GroupsFrom(file, groups, 0)| && SaysAt(GroupsFrom(file, groups, 0)[k], file, groups, g, h, i, j)
  {
    var e := Entry(groups[g].content[2 * h], groups[g].content[2 * h + 1]);
    var x := EntryLinked(file, Value(e.key), g, i, e.value.items[i], j, props, href);
    var y := HeadedLinked(file, g, e, i, x);
    k := HeadingReached(file, groups, g, h, y);
  }

  lemma OneField(n: Option<Node>, key: string, v: string, w: string)
    requires IsField(n, key, v) && IsField(n, key, w)
    ensures v == w
  {
    if n.Some? && n.value.Mapping? {
      var c := n.value.content;
      if i :| 0 <= i < |c| / 2 && Value(c[2 * i]) == key {
        var a :| 0 <= a < |c| / 2 && Value(c[2 * a]) == key && v == TrimSpace(Value(c[2 * a + 1]))
                 && forall j :: 0 <= j < a ==> Value(c[2 * j]) != key;
        var b :| 0 <= b < |c| / 2 && Value(c[2 * b]) == key && w == TrimSpace(Value(c[2 * b + 1]))
                 && forall j :: 0 <= j < b ==> Value(c[2 * j]) != key;
        assert a == b;
      }
    }
  }
}
