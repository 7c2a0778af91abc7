/** The link store as an object, and the import of homepage files into it. */
module ImportHomepage {
  import opened Common
  import opened Strings
  import opened Links
  import opened Import
  import opened LinkOrder
  import opened Homepage
  import opened DocumentOrder
  import opened LinkRows

  // A configured path: none, one that cannot be read or decoded, or a document.
  datatype Input = NoPath | Unreadable | Document(root: Node)

  function InputLinks(file: File, input: Input): seq<Mutation> {
    if input.Document? && input.root.Sequence? then GroupsFrom(file, input.root.items, 0) else []
  }

  function InputErrors(input: Input): nat {
    if input.Unreadable? || (input.Document? && !input.root.Sequence?) then 1 else 0
  }

  function AllLinks(bookmarks: Input, services: Input): seq<Mutation> {
    InputLinks(Bookmarks, bookmarks) + InputLinks(Services, services)
  }

  class LinkStore {
    const env: Env
    var categories: map<string, Category>
    var links: map<nat, Row>
    var next: nat

    constructor (env: Env)
      ensures this.env == env && View() == Store(map[], map[], 0)
    {
      this.env := env;
      categories, links, next := map[], map[], 0;
    }

    ghost function View(): Store
      reads this
    {
      Store(categories, links, next)
    }

    method EnsureCategory(id: Option<nat>, rawName: string) returns (category: Option<nat>)
      modifies this
      ensures (View(), category) == Links.EnsureCategory(old(View()), id, rawName)
    {
      if id.Some? && HasCategoryId(Store(categories, links, next), id.value) {
        return id;
      }
      var name := TrimSpace(rawName);
      if name == "" {
        name := "General";
      }
      category := EnsureByName(name);
    }

    method EnsureByName(name: string) returns (category: Option<nat>)
      modifies this
      ensures (View(), category) == Links.EnsureByName(old(View()), name)
    {
      if name in categories {
        return Some(categories[name].id);
      }
      category := InsertCategory(name);
    }

    // The insertion of a new category, which the unique slug may refuse.
    method InsertCategory(name: string) returns (category: Option<nat>)
      modifies this
      ensures category.None? <==> SlugTaken(old(View()), CategorySlug(name))
      ensures category.None? ==> View() == old(View())
      ensures category.Some? ==>
                category.value == old(next)
                && View() == Store(old(categories)[name := Category(old(next), CategorySlug(name), 100)],
                                   old(links), old(next) + 1)
    {
      var slug := Slugify(name);
      if slug == "" {
        slug := "category";
      }
      if exists other :: other in categories && categories[other].slug == slug {
        return None;
      }
      category := Some(next);
      categories := categories[name := Category(next, slug, 100)];
      next := next + 1;
    }

    method NextOrder(category: nat) returns (order: int)
      ensures order == NextSortOrder(View(), category)
    {
      var orders := set r | r in links && links[r].category == category :: links[r].sortOrder;
      var left := orders;
      var best: Option<int> := None;
      while left != {}
        invariant left <= orders
        invariant best.None? ==> left == orders
        invariant best.Some? ==> best.value in orders && forall o :: o in orders && o !in left ==> o <= best.value
        decreases |left|
      {
        var o :| o in left;
        if best.None? || best.value < o {
          best := Some(o);
        }
        left := left - {o};
      }
      order := (if best.Some? then best.value else 0) + 10;
    }

    method CreateLink(m: Mutation) returns (id: Option<nat>)
      modifies this
      ensures (View(), id) == Links.CreateLink(env, old(View()), m)
      ensures id.Some? <==> MayStore(env, m) && HasRoom(old(View()), m)
      ensures id.Some? ==> id.value in links && links == old(links)[id.value := links[id.value]] && Shows(links[id.value], m)
      ensures id.None? ==> links == old(links)
    {
      CreateStores(env, View(), m);
      var n := Normalize(env, m);
      if n.None? {
        return None;
      }
      var category := EnsureCategory(n.value.categoryId, n.value.categoryName);
      if category.None? {
        return None;
      }
      var order := n.value.sortOrder;
      if order == 0 {
        order := NextOrder(category.value);
      }
      id := Some(next);
      links := links[next := RowOf(n.value, category.value, order)];
      next := next + 1;
    }

    method UpdateLink(id: nat, m: Mutation) returns (updated: Option<nat>)
      modifies this
      ensures (View(), updated) == Links.UpdateLink(env, old(View()), id, m)
      ensures updated.Some? <==> MayStore(env, m) && HasRoom(old(View()), m) && id in old(links)
      ensures updated.Some? ==> id in links && links == old(links)[id := links[id]] && Shows(links[id], m)
      ensures updated.None? ==> links == old(links)
    {
      UpdateStores(env, View(), id, m);
      var n := Normalize(env, m);
      if n.None? {
        return None;
      }
      var category := EnsureCategory(n.value.categoryId, n.value.categoryName);
      if category.None? || id !in links {
        return None;
      }
      links := links[id := RowOf(n.value, category.value, n.value.sortOrder)];
      updated := Some(id);
    }

    method UpsertImportedLink(m: Mutation) returns (outcome: Outcome)
      modifies this
      ensures (View(), outcome) == Links.UpsertImportedLink(env, old(View()), m)
    {
      var n := Normalize(env, m);
      if n.None? {
        return Skipped;
      }
      var found := set r | r in links && links[r].title == n.value.title && links[r].url == n.value.url;
      assert found == Matches(View(), n.value.title, n.value.url);
      if found != {} {
        var id := UpdateLink(env.pick(found), n.value);
        outcome := if id.Some? then Updated else Skipped;
      } else {
        var id := CreateLink(n.value);
        outcome := if id.Some? then Created else Skipped;
      }
    }

    method ImportLinks(sorted: seq<Mutation>) returns (result: Counts)
      modifies this
      ensures (View(), result) == ImportAll(env, old(View()), sorted, NO_COUNTS)
    {
      result := NO_COUNTS;
      ghost var goal := ImportAll(env, View(), sorted, NO_COUNTS);
      assert sorted[0..] == sorted;
      for i := 0 to |sorted|
        invariant ImportAll(env, View(), sorted[i..], result) == goal
      {
        ImportStep(env, View(), sorted, i, result);
        var outcome := UpsertImportedLink(sorted[i]);
        if outcome.Skipped? {
          result := result.(skipped := result.skipped + 1);
        } else if outcome.Created? {
          result := result.(imported := result.imported + 1, created := result.created + 1);
        } else {
          result := result.(imported := result.imported + 1, updated := result.updated + 1);
        }
      }
    }

    // ImportHomepage: both files, sorted by category and order, upserted one by one.  It fails only
    // when nothing was parsed and something went wrong.
    method ImportHomepage(bookmarks: Input, services: Input) returns (result: Counts, errors: nat, failed: bool)
      modifies this
      ensures (View(), result) == ImportAll(env, old(View()), SortByOrder(AllLinks(bookmarks, services)), NO_COUNTS)
      ensures errors == InputErrors(bookmarks) + InputErrors(services) + result.skipped
      ensures failed <==> AllLinks(bookmarks, services) == [] && errors > 0
      ensures result.imported == result.created + result.updated
      ensures result.imported + result.skipped == |AllLinks(bookmarks, services)|
    {
      var b, e := ReadInput(Bookmarks, bookmarks);
      var s, f := ReadInput(Services, services);
      ImportCounts(env, View(), b + s);
      result := ImportLinks(SortByOrder(b + s));
      errors := e + f + result.skipped;  // one message for each skipped link
      failed := |b + s| == 0 && errors > 0;
    }
  }

  lemma ImportStep(env: Env, s: Store, ms: seq<Mutation>, i: nat, c: Counts)
    requires i < |ms|
    ensures var (t, o) := Links.UpsertImportedLink(env, s, ms[i]);
            ImportAll(env, s, ms[i..], c) == ImportAll(env, t, ms[i + 1..], Count(o, c))
  {
    assert ms[i..][1..] == ms[i + 1..];
  }

  lemma ImportCounts(env: Env, s: Store, ms: seq<Mutation>)
    ensures var d := ImportAll(env, s, SortByOrder(ms), NO_COUNTS).1;
            d.imported == d.created + d.updated && d.imported + d.skipped == |ms|
  {
    SortPermutes(ms);
    SameLength(SortByOrder(ms), ms);
    CountsAddUp(env, s, SortByOrder(ms), NO_COUNTS);
  }

  method ReadInput(file: File, input: Input) returns (links: seq<Mutation>, errors: nat)
    ensures links == InputLinks(file, input) && errors == InputErrors(input)
  {
    match input {
      case NoPath => return [], 0;
      case Unreadable => return [], 1;
      case Document(root) =>
        var parsed := ParseHomepage(file, root);
        if parsed.None? {
          return [], 1;
        }
        return parsed.value, 0;
    }
  }

  // ---------------------------------------------------------------- the two promises

  lemma AllLinksParsed(bookmarks: Input, services: Input)
    ensures AllParsed(SortByOrder(AllLinks(bookmarks, services)))
  {
    var all := AllLinks(bookmarks, services);
    if bookmarks.Document? && bookmarks.root.Sequence? {
      FileFrom(Bookmarks, bookmarks.root.items, 0);
    }
    if services.Document? && services.root.Sequence? {
      FileFrom(Services, services.root.items, 0);
    }
    SortPermutes(all);
    forall i | 0 <= i < |SortByOrder(all)|
      ensures Parsed(SortByOrder(all)[i])
    {
      assert SortByOrder(all)[i] in multiset(SortByOrder(all));
      assert SortByOrder(all)[i] in all;
    }
  }

  // Importing the same homepage files a second time changes no row, creates nothing, and reports the
  // same numbers of imported and skipped links.
  lemma HomepageImportIdempotent(env: Env, s: Store, bookmarks: Input, services: Input)
    requires Picks(env) && Fresh(s)
    ensures var ms := SortByOrder(AllLinks(bookmarks, services));
            var (t, c) := ImportAll(env, s, ms, NO_COUNTS);
            var (u, d) := ImportAll(env, t, ms, NO_COUNTS);
            u == t && d == Counts(c.imported, 0, c.imported, c.skipped)
  {
    AllLinksParsed(bookmarks, services);
    ImportTwice(env, s, SortByOrder(AllLinks(bookmarks, services)));
  }

  lemma {:induction false} OtherSource(s: seq<Mutation>, source: string, other: string, name: string)
    requires AllFrom(s, source) && source != other
    ensures Section(s, other, name) == []
  {
    if s != [] {
      OtherSource(s[1..], source, other, name);
    }
  }

  lemma SectionOfFile(file: File, bookmarks: seq<Node>, services: seq<Node>, name: string)
    ensures var all := GroupsFrom(Bookmarks, bookmarks, 0) + GroupsFrom(Services, services, 0);
            Section(all, Source(file), name)
            == Section(GroupsFrom(file, if file.Bookmarks? then bookmarks else services, 0), Source(file), name)
  {
    FileFrom(Bookmarks, bookmarks, 0);
    FileFrom(Services, services, 0);
    FlatMapConcat(Pick(Source(file), name), GroupsFrom(Bookmarks, bookmarks, 0), GroupsFrom(Services, services, 0));
    if file.Bookmarks? {
      OtherSource(GroupsFrom(Services, services, 0), Source(Services), Source(file), name);
    } else {
      OtherSource(GroupsFrom(Bookmarks, bookmarks, 0), Source(Bookmarks), Source(file), name);
    }
  }

  function GroupsOf(file: File, bookmarks: seq<Node>, services: seq<Node>): seq<Node> {
    if file.Bookmarks? then bookmarks else services
  }

  // Import keeps the document order of a file's links under one category name if and only if no
  // heading of that name reaches past the start of a later one.
  lemma DocumentOrderExact(file: File, bookmarks: seq<Node>, services: seq<Node>, name: string)
    ensures var all := GroupsFrom(Bookmarks, bookmarks, 0) + GroupsFrom(Services, services, 0);
            var groups := GroupsOf(file, bookmarks, services);
            Section(SortByOrder(all), Source(file), name) == Section(GroupsFrom(file, groups, 0), Source(file), name)
            <==> Stacked(Blocks(file, groups, 0, name))
  {
    SectionOfFile(file, bookmarks, services, name);
    ImportOrder(GroupsFrom(Bookmarks, bookmarks, 0) + GroupsFrom(Services, services, 0), Source(file), name);
    RisingExact(file, GroupsOf(file, bookmarks, services), name);
  }

  // In particular when the name is a heading once, or when no mapping repeats it and it never heads
  // more than 101 items.
  lemma DocumentOrderKept(file: File, bookmarks: seq<Node>, services: seq<Node>, name: string)
    requires AllHeadings(GroupsOf(file, bookmarks, services), name) <= 1 || TidyGroups(GroupsOf(file, bookmarks, services), name)
    ensures var all := GroupsFrom(Bookmarks, bookmarks, 0) + GroupsFrom(Services, services, 0);
            Section(SortByOrder(all), Source(file), name)
            == Section(GroupsFrom(file, GroupsOf(file, bookmarks, services), 0), Source(file), name)
  {
    OrdersRise(file, GroupsOf(file, bookmarks, services), name);
    DocumentOrderExact(file, bookmarks, services, name);
  }

  // It fails: one heading in two groups with 102 items in the first, and one heading twice in a mapping
  // with two items the first time.
  lemma DocumentOrderLost(file: File, other: seq<Node>)
    ensures Jumbled(file, TwoGroups(102), other) && Jumbled(file, TwiceInOne(2), other)
  {
    LongGroup(file, 102);
    RepeatedHeading(file, 2);
    JumbledExact(file, TwoGroups(102), other);
    JumbledExact(file, TwiceInOne(2), other);
  }

  // The links under heading A of this file are not imported in document order.
  ghost predicate Jumbled(file: File, groups: seq<Node>, other: seq<Node>) {
    var (b, s) := if file.Bookmarks? then (groups, other) else (other, groups);
    var all := GroupsFrom(Bookmarks, b, 0) + GroupsFrom(Services, s, 0);
    Section(SortByOrder(all), Source(file), "A") != Section(GroupsFrom(file, groups, 0), Source(file), "A")
  }

  lemma JumbledExact(file: File, groups: seq<Node>, other: seq<Node>)
    ensures Jumbled(file, groups, other) <==> !Stacked(Blocks(file, groups, 0, "A"))
  {
    var (b, s) := if file.Bookmarks? then (groups, other) else (other, groups);
    assert GroupsOf(file, b, s) == groups;
    DocumentOrderExact(file, b, s, "A");
  }
}
