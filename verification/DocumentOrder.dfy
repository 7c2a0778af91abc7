/** When the links under one category name are imported in the order of their file. */
module DocumentOrder {
  import opened Common
  import opened Strings
  import opened Links
  import opened LinkOrder
  import opened Homepage

  // ---------------------------------------------------------------- the condition, on the document

  // Whether an item of a heading gives any link; neither the name nor the order matters.
  predicate Linked(file: File, item: Node) {
    ItemLinks(file, "", 0, item) != []
  }

  // The positions of the first and the last item that give a link: the length, and -1, when none does.
  function FirstLinked(file: File, items: seq<Node>): nat {
    if items == [] || Linked(file, items[0]) then 0 else 1 + FirstLinked(file, items[1..])
  }

  function LastLinked(file: File, items: seq<Node>): (r: int)
    ensures -1 <= r < |items|
  {
    if items == [] then -1
    else
      var rest := LastLinked(file, items[1..]);
      if rest >= 0 then rest + 1 else if Linked(file, items[0]) then 0 else -1
  }

  // A heading with links: its group, and the first and last position in it that give one.
  datatype Block = Block(group: nat, first: nat, last: nat)

  function HeadBlocks(file: File, group: nat, name: string): Entry -> seq<Block> {
    (e: Entry) =>
      if Value(e.key) == name && e.value.Sequence? && LastLinked(file, e.value.items) >= 0
      then [Block(group, FirstLinked(file, e.value.items), LastLinked(file, e.value.items))] else []
  }

  function GroupBlocks(file: File, group: nat, n: Node, name: string): seq<Block> {
    if n.Mapping? then FlatMap(HeadBlocks(file, group, name), Entries(n.content)) else []
  }

  // The headings of this name that have links, in document order.
  function Blocks(file: File, groups: seq<Node>, group: nat, name: string): seq<Block> {
    if groups == [] then [] else GroupBlocks(file, group, groups[0], name) + Blocks(file, groups[1..], group + 1, name)
  }

  // A group is worth a hundred items: no heading reaches past the start of a later one.
  ghost predicate Stacked(bs: seq<Block>) {
    forall i, j :: 0 <= i < j < |bs| ==> 100 * bs[i].group + bs[i].last <= 100 * bs[j].group + bs[j].first
  }

  // ---------------------------------------------------------------- the links of a heading

  lemma {:induction false} SameCount(file: File, name: string, order: int, name': string, order': int, entries: seq<Entry>)
    ensures |FlatMap(EntryLinks(file, name, order), entries)| == |FlatMap(EntryLinks(file, name', order'), entries)|
  {
    if entries != [] {
      SameCount(file, name, order, name', order', entries[1..]);
    }
  }

  lemma LinkedAlways(file: File, name: string, order: int, item: Node)
    ensures ItemLinks(file, name, order, item) != [] <==> Linked(file, item)
  {
    if item.Mapping? {
      SameCount(file, name, order, "", 0, Entries(item.content));
    }
  }

  ghost predicate Ends(r: seq<Mutation>, some: bool, first: int, last: int) {
    && (r != [] <==> some)
    && (r != [] ==> r[0].sortOrder == first && r[|r| - 1].sortOrder == last)
  }

  lemma EndsJoin(a: seq<Mutation>, b: seq<Mutation>, linked: bool, order: int, some: bool, first: int, last: int)
    requires (a != [] <==> linked) && Span(a, order, order) && Ends(b, some, first, last)
    ensures Ends(a + b, linked || some, if linked then order else first, if some then last else order)
  {
    if b != [] {
      assert (a + b)[|a + b| - 1] == b[|b| - 1];
    }
  }

  // The first and last orders are those of the first and last items that give links.
  lemma {:induction false} ItemsEnds(file: File, name: string, group: nat, items: seq<Node>, k: nat)
    ensures Ends(ItemsFrom(file, name, group, items, k), LastLinked(file, items) >= 0,
                 Order(group, k) + 10 * FirstLinked(file, items), Order(group, k) + 10 * LastLinked(file, items))
    decreases |items|
  {
    if items != [] {
      LinkedAlways(file, name, Order(group, k), items[0]);
      ItemShape(file, name, Order(group, k), items[0]);
      ItemsEnds(file, name, group, items[1..], k + 1);
      var last := LastLinked(file, items[1..]);
      EndsJoin(ItemLinks(file, name, Order(group, k), items[0]), ItemsFrom(file, name, group, items[1..], k + 1),
               Linked(file, items[0]), Order(group, k), last >= 0,
               Order(group, k + 1) + 10 * FirstLinked(file, items[1..]), Order(group, k + 1) + 10 * last);
    }
  }

  // ---------------------------------------------------------------- segments and blocks

  // A heading's links and its block.
  ghost predicate Segment(seg: seq<Mutation>, b: Block) {
    && seg != [] && Rising(seg)
    && seg[0].sortOrder == Order(b.group, b.first) && seg[|seg| - 1].sortOrder == Order(b.group, b.last)
  }

  ghost predicate Fits(segs: seq<seq<Mutation>>, bs: seq<Block>) {
    |segs| == |bs| && forall i :: 0 <= i < |bs| ==> Segment(segs[i], bs[i])
  }

  lemma FitsConcat(segs: seq<seq<Mutation>>, bs: seq<Block>, segs': seq<seq<Mutation>>, bs': seq<Block>)
    requires Fits(segs, bs) && Fits(segs', bs')
    ensures Fits(segs + segs', bs + bs') && Flatten(segs + segs') == Flatten(segs) + Flatten(segs')
  {
    FlattenConcat(segs, segs');
  }

  lemma HeadSegments(file: File, group: nat, e: Entry, name: string) returns (segs: seq<seq<Mutation>>)
    ensures Fits(segs, HeadBlocks(file, group, name)(e))
    ensures Flatten(segs) == if Value(e.key) == name then Headed(file, group)(e) else []
  {
    var links := Headed(file, group)(e);
    if Value(e.key) == name && links != [] {
      HeadedSection(file, group, e, name);
      ItemsEnds(file, name, group, e.value.items, 0);
      segs := [links];
      assert Flatten([links]) == links + Flatten([links][1..]) == links;
    } else {
      if e.value.Sequence? {
        ItemsEnds(file, Value(e.key), group, e.value.items, 0);
      }
      segs := [];
    }
  }

  lemma {:induction false} GroupSegments(file: File, group: nat, entries: seq<Entry>, name: string) returns (segs: seq<seq<Mutation>>)
    ensures Fits(segs, FlatMap(HeadBlocks(file, group, name), entries))
    ensures Flatten(segs) == Section(FlatMap(Headed(file, group), entries), Source(file), name)
    decreases |entries|
  {
    segs := [];
    if entries != [] {
      var head := HeadSegments(file, group, entries[0], name);
      var rest := GroupSegments(file, group, entries[1..], name);
      SectionCons(file, group, entries, name);
      FitsConcat(head, HeadBlocks(file, group, name)(entries[0]), rest, FlatMap(HeadBlocks(file, group, name), entries[1..]));
      segs := head + rest;
    }
  }

  lemma {:induction false} FileSegments(file: File, groups: seq<Node>, group: nat, name: string) returns (segs: seq<seq<Mutation>>)
    ensures Fits(segs, Blocks(file, groups, group, name))
    ensures Flatten(segs) == Section(GroupsFrom(file, groups, group), Source(file), name)
    decreases |groups|
  {
    segs := [];
    if groups != [] {
      var head: seq<seq<Mutation>> := [];
      if groups[0].Mapping? {
        head := GroupSegments(file, group, Entries(groups[0].content), name);
      }
      var rest := FileSegments(file, groups[1..], group + 1, name);
      FlatMapConcat(Pick(Source(file), name), GroupLinks(file, group, groups[0]), GroupsFrom(file, groups[1..], group + 1));
      FitsConcat(head, GroupBlocks(file, group, groups[0], name), rest, Blocks(file, groups[1..], group + 1, name));
      segs := head + rest;
    }
  }

  // ---------------------------------------------------------------- rising orders and stacked blocks

  ghost predicate AtLeast(s: seq<Mutation>, x: int) {
    forall i :: 0 <= i < |s| ==> x <= s[i].sortOrder
  }

  lemma RisingJoin(a: seq<Mutation>, b: seq<Mutation>)
    requires a != [] && Rising(a)
    ensures Rising(a + b) <==> Rising(b) && AtLeast(b, a[|a| - 1].sortOrder)
  {
    if Rising(a + b) {
      assert forall i :: 0 <= i < |b| ==> (a + b)[|a| + i] == b[i];
      assert (a + b)[|a| - 1] == a[|a| - 1];
    }
  }

  lemma {:induction false} AtLeastFlatten(segs: seq<seq<Mutation>>, bs: seq<Block>, x: int)
    requires Fits(segs, bs)
    ensures AtLeast(Flatten(segs), x) <==> forall j :: 0 <= j < |bs| ==> x <= Order(bs[j].group, bs[j].first)
    decreases |segs|
  {
    if segs != [] {
      assert Fits(segs[1..], bs[1..]);
      AtLeastFlatten(segs[1..], bs[1..], x);
      var a, b := segs[0], Flatten(segs[1..]);
      assert Segment(a, bs[0]);
      assert AtLeast(a + b, x) <==> AtLeast(a, x) && AtLeast(b, x) by {
        AtLeastConcat(a, b, x);
      }
      assert AtLeast(a, x) <==> x <= a[0].sortOrder;
      assert forall j :: 1 <= j < |bs| ==> bs[j] == bs[1..][j - 1];
      assert forall j :: 0 <= j < |bs[1..]| ==> bs[1..][j] == bs[j + 1];
    }
  }

  lemma AtLeastConcat(a: seq<Mutation>, b: seq<Mutation>, x: int)
    ensures AtLeast(a + b, x) <==> AtLeast(a, x) && AtLeast(b, x)
  {
    if AtLeast(a + b, x) {
      assert forall i :: 0 <= i < |a| ==> (a + b)[i] == a[i];
      assert forall i :: 0 <= i < |b| ==> (a + b)[|a| + i] == b[i];
    }
  }

  lemma StackedCons(bs: seq<Block>)
    requires bs != []
    ensures Stacked(bs) <==>
              (Stacked(bs[1..]) && forall j :: 0 <= j < |bs[1..]| ==> Order(bs[0].group, bs[0].last) <= Order(bs[1..][j].group, bs[1..][j].first))
  {
    if Stacked(bs) {
      assert forall j :: 0 <= j < |bs[1..]| ==> bs[1..][j] == bs[j + 1];
    } else {
      var i, j :| 0 <= i < j < |bs| && 100 * bs[i].group + bs[i].last > 100 * bs[j].group + bs[j].first;
      assert bs[j] == bs[1..][j - 1];
      if i > 0 {
        assert bs[i] == bs[1..][i - 1];
      }
    }
  }

  lemma {:induction false} StackedExact(segs: seq<seq<Mutation>>, bs: seq<Block>)
    requires Fits(segs, bs)
    ensures Rising(Flatten(segs)) <==> Stacked(bs)
    decreases |segs|
  {
    if segs != [] {
      assert Fits(segs[1..], bs[1..]);
      assert Segment(segs[0], bs[0]);
      StackedExact(segs[1..], bs[1..]);
      RisingJoin(segs[0], Flatten(segs[1..]));
      AtLeastFlatten(segs[1..], bs[1..], Order(bs[0].group, bs[0].last));
      StackedCons(bs);
    }
  }

  // The sort orders of a file's links under a name do not fall along the document if and only if no
  // heading of that name reaches past the start of a later one.
  lemma RisingExact(file: File, groups: seq<Node>, name: string)
    ensures Rising(Section(GroupsFrom(file, groups, 0), Source(file), name)) <==> Stacked(Blocks(file, groups, 0, name))
  {
    var segs := FileSegments(file, groups, 0, name);
    StackedExact(segs, Blocks(file, groups, 0, name));
  }

  // ---------------------------------------------------------------- when it holds

  lemma {:induction false} FewBlocks(file: File, group: nat, entries: seq<Entry>, name: string)
    ensures |FlatMap(HeadBlocks(file, group, name), entries)| <= Headings(entries, name)
  {
    if entries != [] {
      FewBlocks(file, group, entries[1..], name);
    }
  }

  lemma {:induction false} FewInFile(file: File, groups: seq<Node>, group: nat, name: string)
    ensures |Blocks(file, groups, group, name)| <= AllHeadings(groups, name)
    decreases |groups|
  {
    if groups != [] {
      FewInFile(file, groups[1..], group + 1, name);
      if groups[0].Mapping? {
        FewBlocks(file, group, Entries(groups[0].content), name);
      }
    }
  }

  // Headings of this name hold at most `most` items.
  ghost predicate Small(entries: seq<Entry>, name: string, most: nat) {
    forall i :: 0 <= i < |entries| && Value(entries[i].key) == name && entries[i].value.Sequence? ==>
      |entries[i].value.items| <= most
  }

  // No mapping repeats the heading, and none holds more than 101 items under it.
  ghost predicate TidyGroups(groups: seq<Node>, name: string) {
    forall i :: 0 <= i < |groups| && groups[i].Mapping? ==>
      Headings(Entries(groups[i].content), name) <= 1 && Small(Entries(groups[i].content), name, 101)
  }

  ghost predicate InGroup(bs: seq<Block>, group: nat) {
    forall i :: 0 <= i < |bs| ==> bs[i].group == group && bs[i].last <= 100
  }

  lemma {:induction false} BlocksInGroup(file: File, group: nat, entries: seq<Entry>, name: string)
    requires Small(entries, name, 101)
    ensures InGroup(FlatMap(HeadBlocks(file, group, name), entries), group)
  {
    if entries != [] {
      assert Small(entries[1..], name, 101);
      BlocksInGroup(file, group, entries[1..], name);
    }
  }

  ghost predicate From(bs: seq<Block>, group: nat) {
    forall i :: 0 <= i < |bs| ==> bs[i].group >= group
  }

  lemma StackedJoin(a: seq<Block>, b: seq<Block>, group: nat)
    requires |a| <= 1 && InGroup(a, group) && Stacked(b) && From(b, group + 1)
    ensures Stacked(a + b) && From(a + b, group)
  {
  }

  lemma {:induction false} TidyStacked(file: File, groups: seq<Node>, group: nat, name: string)
    requires TidyGroups(groups, name)
    ensures Stacked(Blocks(file, groups, group, name)) && From(Blocks(file, groups, group, name), group)
    decreases |groups|
  {
    if groups != [] {
      TidyStacked(file, groups[1..], group + 1, name);
      if groups[0].Mapping? {
        FewBlocks(file, group, Entries(groups[0].content), name);
        BlocksInGroup(file, group, Entries(groups[0].content), name);
      }
      StackedJoin(GroupBlocks(file, group, groups[0], name), Blocks(file, groups[1..], group + 1, name), group);
    }
  }

  // A name that is a heading once, or that no mapping repeats and that heads at most 101 items each.
  lemma OrdersRise(file: File, groups: seq<Node>, name: string)
    requires AllHeadings(groups, name) <= 1 || TidyGroups(groups, name)
    ensures Stacked(Blocks(file, groups, 0, name))
  {
    if AllHeadings(groups, name) <= 1 {
      FewInFile(file, groups, 0, name);
    } else {
      TidyStacked(file, groups, 0, name);
    }
  }

  // ---------------------------------------------------------------- when it fails

  const ITEM := Mapping([Scalar("title"), Mapping([Scalar("href"), Scalar("address")])])

  function Repeated(n: nat): seq<Node> {
    if n == 0 then [] else [ITEM] + Repeated(n - 1)
  }

  lemma ItemLinked(file: File)
    ensures Linked(file, ITEM)
  {
    var props := Mapping([Scalar("href"), Scalar("address")]);
    var e := Entry(Scalar("title"), props);
    assert Entries(props.content) == [Entry(Scalar("href"), Scalar("address"))] + Entries(props.content[2..]);
    assert TrimSpace("address") == "address" by {
      TrimSpaceTrimmed("address");
    }
    assert ScalarOf(Props(file, props), "href") == "address";
    assert Entries(ITEM.content) == [e] + Entries(ITEM.content[2..]);
    assert EntryLinks(file, "", 0)(e) != [];
  }

  lemma {:induction false} RepeatedEnds(file: File, n: nat)
    ensures |Repeated(n)| == n && LastLinked(file, Repeated(n)) == n - 1 && FirstLinked(file, Repeated(n)) == 0
  {
    if n > 0 {
      ItemLinked(file);
      RepeatedEnds(file, n - 1);
      assert Repeated(n)[1..] == Repeated(n - 1);
    }
  }

  // One heading in two groups, n items in the first: order is kept if and only if n is at most 101.
  function TwoGroups(n: nat): seq<Node> {
    [Mapping([Scalar("A"), Sequence(Repeated(n))]), Mapping([Scalar("A"), Sequence(Repeated(1))])]
  }

  // One heading twice in a mapping, n items the first time: kept if and only if n is at most one.
  function TwiceInOne(n: nat): seq<Node> {
    [Mapping([Scalar("A"), Sequence(Repeated(n)), Scalar("A"), Sequence(Repeated(1))])]
  }

  lemma OneHeading(file: File, group: nat, n: nat)
    ensures HeadBlocks(file, group, "A")(Entry(Scalar("A"), Sequence(Repeated(n)))) == if n == 0 then [] else [Block(group, 0, n - 1)]
  {
    RepeatedEnds(file, n);
  }

  lemma EntriesTwo(a: Node, b: Node, c: Node, d: Node)
    ensures Entries([a, b]) == [Entry(a, b)] && Entries([a, b, c, d]) == [Entry(a, b), Entry(c, d)]
  {
    assert [a, b][2..] == [] && [a, b, c, d][2..] == [c, d] && [c, d][2..] == [];
    assert Entries([c, d]) == [Entry(c, d)] + Entries([]);
  }

  lemma PairStacked(a: Block, b: Block)
    ensures Stacked([a, b]) <==> 100 * a.group + a.last <= 100 * b.group + b.first
  {
    assert [a, b][0] == a && [a, b][1] == b;
  }

  lemma LongGroup(file: File, n: nat)
    requires n > 0
    ensures Blocks(file, TwoGroups(n), 0, "A") == [Block(0, 0, n - 1), Block(1, 0, 0)]
    ensures Stacked(Blocks(file, TwoGroups(n), 0, "A")) <==> n <= 101
  {
    var g := TwoGroups(n);
    var x, y := Entry(Scalar("A"), Sequence(Repeated(n))), Entry(Scalar("A"), Sequence(Repeated(1)));
    EntriesTwo(x.key, x.value, y.key, y.value);
    EntriesTwo(y.key, y.value, y.key, y.value);
    OneHeading(file, 0, n);
    OneHeading(file, 1, 1);
    FlatOne(HeadBlocks(file, 0, "A"), x);
    FlatOne(HeadBlocks(file, 1, "A"), y);
    assert g[1..] == [g[1]] && g[1..][1..] == [];
    assert Blocks(file, g[1..], 1, "A") == [Block(1, 0, 0)] + Blocks(file, [], 2, "A");
    assert Blocks(file, g, 0, "A") == [Block(0, 0, n - 1), Block(1, 0, 0)];
    PairStacked(Block(0, 0, n - 1), Block(1, 0, 0));
  }

  lemma FlatOne(f: Entry -> seq<Block>, x: Entry)
    ensures FlatMap(f, [x]) == f(x)
  {
    assert FlatMap(f, [x]) == f(x) + FlatMap(f, [x][1..]) == f(x);
  }

  lemma RepeatedHeading(file: File, n: nat)
    requires n > 0
    ensures Blocks(file, TwiceInOne(n), 0, "A") == [Block(0, 0, n - 1), Block(0, 0, 0)]
    ensures Stacked(Blocks(file, TwiceInOne(n), 0, "A")) <==> n <= 1
  {
    var g := TwiceInOne(n);
    var x, y := Entry(Scalar("A"), Sequence(Repeated(n))), Entry(Scalar("A"), Sequence(Repeated(1)));
    EntriesTwo(x.key, x.value, y.key, y.value);
    OneHeading(file, 0, n);
    OneHeading(file, 0, 1);
    FlatMapSnoc(HeadBlocks(file, 0, "A"), [x], y);
    FlatOne(HeadBlocks(file, 0, "A"), x);
    assert [x] + [y] == [x, y] && g[1..] == [];
    assert Blocks(file, g, 0, "A") == GroupBlocks(file, 0, g[0], "A") + Blocks(file, [], 1, "A");
    assert Blocks(file, g, 0, "A") == [Block(0, 0, n - 1), Block(0, 0, 0)];
    PairStacked(Block(0, 0, n - 1), Block(0, 0, 0));
  }
}
