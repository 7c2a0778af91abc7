/** Importing a list of links: a last-writer-wins upsert over the link store, and its idempotence. */
module Import {
  import opened Common
  import opened Strings
  import opened Links

  // What the homepage parser produces: no category id, and a sort order that is never zero.
  predicate Parsed(m: Mutation) {
    m.categoryId.None? && m.sortOrder != 0
  }

  // Ids in use are below the next one.
  ghost predicate Fresh(s: Store) {
    forall r :: r in s.links ==> r < s.next
  }

  // ---------------------------------------------------------------- what one upsert does

  function NameOf(m: Mutation): string {
    Tidy(m).categoryName
  }

  lemma CategoryNameStable(m: Mutation)
    requires m.categoryId.None?
    ensures OrElse(TrimSpace(NameOf(m)), "General") == NameOf(m)
  {
    TrimTwice(m.categoryName, "General");
  }

  function WithCategory(s: Store, name: string): Store {
    if name in s.categories then s
    else s.(categories := s.categories[name := Category(s.next, CategorySlug(name), 100)], next := s.next + 1)
  }

  predicate Refused(env: Env, s: Store, m: Mutation) {
    !Acceptable(env, Tidy(m))
    || (NameOf(m) !in s.categories && SlugTaken(s, CategorySlug(NameOf(m))))
  }

  ghost function MatchesOf(s: Store, m: Mutation): set<nat> {
    Matches(s, Tidy(m).title, Tidy(m).url)
  }

  // The upsert in one step: refuse, or make sure of the category and write one row.
  lemma UpsertShape(env: Env, s: Store, m: Mutation)
    requires Parsed(m) && Picks(env) && Fresh(s)
    ensures Refused(env, s, m) ==> UpsertImportedLink(env, s, m) == (s, Skipped)
    ensures !Refused(env, s, m) ==>
              var t := WithCategory(s, NameOf(m));
              var row := RowOf(Tidy(m), t.categories[NameOf(m)].id, m.sortOrder);
              UpsertImportedLink(env, s, m)
              == if MatchesOf(s, m) != {} then (t.(links := s.links[env.pick(MatchesOf(s, m)) := row]), Updated)
                 else (t.(links := s.links[t.next := row], next := t.next + 1), Created)
  {
    NormalizeIdempotent(env, m);
    CategoryNameStable(m);
    if Acceptable(env, Tidy(m)) {
      EnsureShape(s, m);
      var found := MatchesOf(s, m);
      if found != {} {
        assert env.pick(found) in found;
      }
    }
  }

  lemma EnsureShape(s: Store, m: Mutation)
    requires m.categoryId.None?
    ensures var (t, category) := EnsureCategory(s, None, NameOf(m));
            if NameOf(m) !in s.categories && SlugTaken(s, CategorySlug(NameOf(m))) then t == s && category.None?
            else t == WithCategory(s, NameOf(m)) && category == Some(t.categories[NameOf(m)].id)
  {
    CategoryNameStable(m);
  }

  // ---------------------------------------------------------------- importing a list

  datatype Counts = Counts(imported: nat, created: nat, updated: nat, skipped: nat)

  function Count(o: Outcome, c: Counts): Counts {
    match o
    case Created => c.(imported := c.imported + 1, created := c.created + 1)
    case Updated => c.(imported := c.imported + 1, updated := c.updated + 1)
    case Skipped => c.(skipped := c.skipped + 1)
  }

  ghost function ImportAll(env: Env, s: Store, links: seq<Mutation>, c: Counts): (Store, Counts)
    decreases |links|
  {
    if links == [] then (s, c)
    else
      var (t, o) := UpsertImportedLink(env, s, links[0]);
      ImportAll(env, t, links[1..], Count(o, c))
  }

  // Every link is counted once: imported = created + updated, and imported + skipped = the number given.
  lemma {:induction false} CountsAddUp(env: Env, s: Store, links: seq<Mutation>, c: Counts)
    requires c.imported == c.created + c.updated
    ensures var d := ImportAll(env, s, links, c).1;
            d.imported == d.created + d.updated
            && d.imported + d.skipped == c.imported + c.skipped + |links|
    decreases |links|
  {
    if links != [] {
      var (t, o) := UpsertImportedLink(env, s, links[0]);
      CountsAddUp(env, t, links[1..], Count(o, c));
    }
  }

  // ---------------------------------------------------------------- settled links

  // The row and content an upsert writes in a state where its category and its row already exist.
  datatype Write = Write(row: nat, content: Row)

  ghost function WouldWrite(env: Env, s: Store, m: Mutation): Option<Write> {
    if Refused(env, s, m) || NameOf(m) !in s.categories then None
    else Some(Write(env.pick(MatchesOf(s, m)), RowOf(Tidy(m), s.categories[NameOf(m)].id, m.sortOrder)))
  }

  // Importing m again creates nothing: it is refused, or its category and a matching row exist.
  ghost predicate Settled(env: Env, s: Store, m: Mutation) {
    Refused(env, s, m) || (NameOf(m) in s.categories && MatchesOf(s, m) != {})
  }

  ghost function Commit(links: map<nat, Row>, w: Option<Write>): map<nat, Row> {
    if w.Some? then links[w.value.row := w.value.content] else links
  }

  // Later upserts keep what exists: categories are never changed, one whose slug was taken is never
  // added, and the rows a (title, url) pair finds stay the same once there is one.
  ghost predicate Grows(s: Store, t: Store) {
    && (forall name :: name in s.categories ==> name in t.categories && t.categories[name] == s.categories[name])
    && (forall name :: name in t.categories && name !in s.categories ==> !SlugTaken(s, CategorySlug(name)))
    && (forall title, url :: Matches(s, title, url) != {} ==> Matches(t, title, url) == Matches(s, title, url))
  }

  lemma SlugStays(s: Store, t: Store, slug: string)
    requires Grows(s, t) && SlugTaken(s, slug)
    ensures SlugTaken(t, slug)
  {
    var name :| name in s.categories && s.categories[name].slug == slug;
    assert t.categories[name].slug == slug;
  }

  lemma GrowsTrans(s: Store, t: Store, u: Store)
    requires Grows(s, t) && Grows(t, u)
    ensures Grows(s, u)
  {
    forall name | name in u.categories && name !in s.categories
      ensures !SlugTaken(s, CategorySlug(name))
    {
      if name !in t.categories && SlugTaken(s, CategorySlug(name)) {
        SlugStays(s, t, CategorySlug(name));
        assert false;
      }
    }
  }

  lemma SettledStays(env: Env, s: Store, t: Store, m: Mutation)
    requires Grows(s, t) && Settled(env, s, m)
    ensures Settled(env, t, m) && WouldWrite(env, t, m) == WouldWrite(env, s, m)
  {
    if Acceptable(env, Tidy(m)) && NameOf(m) !in s.categories {
      SlugStays(s, t, CategorySlug(NameOf(m)));
    }
  }

  lemma MatchesUpdate(s: Store, t: Store, r: nat, row: Row)
    requires r in s.links && t.links == s.links[r := row]
    requires row.title == s.links[r].title && row.url == s.links[r].url
    ensures forall title, url :: Matches(t, title, url) == Matches(s, title, url)
  {
  }

  lemma MatchesCreate(s: Store, t: Store, r: nat, row: Row)
    requires r !in s.links && t.links == s.links[r := row]
    requires Matches(s, row.title, row.url) == {}
    ensures forall title, url :: Matches(s, title, url) != {} ==> Matches(t, title, url) == Matches(s, title, url)
    ensures Matches(t, row.title, row.url) == {r}
  {
    forall title, url | Matches(s, title, url) != {}
      ensures Matches(t, title, url) == Matches(s, title, url)
    {
      assert (title, url) != (row.title, row.url);
    }
    forall x | x in Matches(t, row.title, row.url)
      ensures x == r
    {
      assert x != r ==> x in Matches(s, row.title, row.url);
    }
    assert r in Matches(t, row.title, row.url);
  }

  lemma CategoryGrows(s: Store, name: string)
    requires name in s.categories || !SlugTaken(s, CategorySlug(name))
    ensures Grows(s, WithCategory(s, name))
  {
  }

  ghost predicate Settles(env: Env, s: Store, m: Mutation, t: Store, o: Outcome) {
    && Grows(s, t) && Fresh(t) && Settled(env, t, m)
    && t.links == Commit(s.links, WouldWrite(env, t, m))
    && (o.Skipped? <==> WouldWrite(env, t, m).None?)
  }

  // One upsert: nothing that exists is lost, the link is settled afterwards, and the rows differ by
  // exactly the one write that importing it again would repeat.
  lemma UpsertSettles(env: Env, s: Store, m: Mutation)
    requires Parsed(m) && Picks(env) && Fresh(s)
    ensures var (t, o) := UpsertImportedLink(env, s, m); Settles(env, s, m, t, o)
  {
    UpsertShape(env, s, m);
    if !Refused(env, s, m) {
      if MatchesOf(s, m) != {} {
        UpdateSettles(env, s, m);
      } else {
        CreateSettles(env, s, m);
      }
    }
  }

  lemma UpdateSettles(env: Env, s: Store, m: Mutation)
    requires Picks(env) && Fresh(s) && !Refused(env, s, m) && MatchesOf(s, m) != {}
    ensures var t := WithCategory(s, NameOf(m));
            var row := RowOf(Tidy(m), t.categories[NameOf(m)].id, m.sortOrder);
            Settles(env, s, m, t.(links := s.links[env.pick(MatchesOf(s, m)) := row]), Updated)
  {
    var u := WithCategory(s, NameOf(m));
    var row := RowOf(Tidy(m), u.categories[NameOf(m)].id, m.sortOrder);
    var r := env.pick(MatchesOf(s, m));
    assert r in MatchesOf(s, m);
    CategoryGrows(s, NameOf(m));
    MatchesUpdate(s, u.(links := s.links[r := row]), r, row);
  }

  lemma CreateSettles(env: Env, s: Store, m: Mutation)
    requires Picks(env) && Fresh(s) && !Refused(env, s, m) && MatchesOf(s, m) == {}
    ensures var t := WithCategory(s, NameOf(m));
            var row := RowOf(Tidy(m), t.categories[NameOf(m)].id, m.sortOrder);
            Settles(env, s, m, t.(links := s.links[t.next := row], next := t.next + 1), Created)
  {
    var u := WithCategory(s, NameOf(m));
    var row := RowOf(Tidy(m), u.categories[NameOf(m)].id, m.sortOrder);
    CategoryGrows(s, NameOf(m));
    assert u.next !in s.links;
    MatchesCreate(s, u.(links := s.links[u.next := row], next := u.next + 1), u.next, row);
    assert env.pick({u.next}) in {u.next};
  }

  // Upserting a settled link again only repeats its write.
  lemma UpsertSettled(env: Env, s: Store, m: Mutation)
    requires Parsed(m) && Picks(env) && Fresh(s) && Settled(env, s, m)
    ensures var (t, o) := UpsertImportedLink(env, s, m);
            && t == s.(links := Commit(s.links, WouldWrite(env, s, m)))
            && o == if WouldWrite(env, s, m).Some? then Updated else Skipped
  {
    UpsertShape(env, s, m);
  }

  // ---------------------------------------------------------------- the second import

  ghost function Commits(env: Env, t: Store, links: map<nat, Row>, ms: seq<Mutation>): map<nat, Row>
    decreases |ms|
  {
    if ms == [] then links else Commits(env, t, Commit(links, WouldWrite(env, t, ms[0])), ms[1..])
  }

  ghost function Hits(env: Env, t: Store, ms: seq<Mutation>): (n: nat)
    ensures n <= |ms|
  {
    if ms == [] then 0 else (if WouldWrite(env, t, ms[0]).Some? then 1 else 0) + Hits(env, t, ms[1..])
  }

  // The last write to a row wins, so writing everything again changes nothing.
  lemma {:induction false} CommitsOverride(env: Env, t: Store, links: map<nat, Row>, ms: seq<Mutation>)
    ensures Commits(env, t, links, ms) == links + Commits(env, t, map[], ms)
    decreases |ms|
  {
    if ms != [] {
      var w := WouldWrite(env, t, ms[0]);
      CommitsOverride(env, t, Commit(links, w), ms[1..]);
      CommitsOverride(env, t, Commit(map[], w), ms[1..]);
      OverrideAssoc(links, w, Commits(env, t, map[], ms[1..]));
    }
  }

  lemma OverrideAssoc(links: map<nat, Row>, w: Option<Write>, rest: map<nat, Row>)
    ensures Commit(links, w) + rest == links + (Commit(map[], w) + rest)
  {
  }

  ghost predicate AllParsed(ms: seq<Mutation>) {
    forall i :: 0 <= i < |ms| ==> Parsed(ms[i])
  }

  ghost predicate AllSettled(env: Env, t: Store, ms: seq<Mutation>) {
    forall i :: 0 <= i < |ms| ==> Settled(env, t, ms[i])
  }

  // After the first import every link is settled, and the rows are what its writes make of them.
  ghost predicate Landed(env: Env, s: Store, ms: seq<Mutation>, c: Counts, t: Store, d: Counts) {
    && Grows(s, t) && Fresh(t) && AllSettled(env, t, ms)
    && t.links == Commits(env, t, s.links, ms)
    && d.imported == c.imported + Hits(env, t, ms)
    && d.skipped == c.skipped + |ms| - Hits(env, t, ms)
  }

  lemma LandedCons(env: Env, s: Store, ms: seq<Mutation>, c: Counts, u: Store, o: Outcome, t: Store, d: Counts)
    requires ms != [] && Settles(env, s, ms[0], u, o) && Landed(env, u, ms[1..], Count(o, c), t, d)
    ensures Landed(env, s, ms, c, t, d)
  {
    GrowsTrans(s, u, t);
    SettledStays(env, u, t, ms[0]);
    assert AllSettled(env, t, ms) by {
      assert forall i :: 1 <= i < |ms| ==> ms[i] == ms[1..][i - 1];
    }
    assert Commits(env, t, s.links, ms) == Commits(env, t, u.links, ms[1..]);
  }

  lemma {:induction false} FirstImport(env: Env, s: Store, ms: seq<Mutation>, c: Counts)
    requires Picks(env) && Fresh(s) && AllParsed(ms)
    ensures var (t, d) := ImportAll(env, s, ms, c); Landed(env, s, ms, c, t, d)
    decreases |ms|
  {
    if ms == [] {
      GrowsRefl(s);
    } else {
      var (u, o) := UpsertImportedLink(env, s, ms[0]);
      UpsertSettles(env, s, ms[0]);
      FirstImport(env, u, ms[1..], Count(o, c));
      var (t, d) := ImportAll(env, u, ms[1..], Count(o, c));
      LandedCons(env, s, ms, c, u, o, t, d);
      assert ImportAll(env, s, ms, c) == (t, d);
    }
  }

  // A settled link in a store that has only grown: one repeated write, counted as before.
  lemma NextUpsert(env: Env, s: Store, t: Store, m: Mutation)
    requires Picks(env) && Fresh(s) && Parsed(m) && Settled(env, t, m) && Grows(t, s)
    ensures var (u, o) := UpsertImportedLink(env, s, m);
            && u == s.(links := Commit(s.links, WouldWrite(env, t, m)))
            && o == (if WouldWrite(env, t, m).Some? then Updated else Skipped)
            && Fresh(u) && Grows(t, u)
  {
    SettledStays(env, t, s, m);
    UpsertSettled(env, s, m);
    UpsertSettles(env, s, m);
    GrowsTrans(t, s, UpsertImportedLink(env, s, m).0);
  }

  function Add(c: Counts, hits: nat, misses: nat): Counts {
    c.(imported := c.imported + hits, updated := c.updated + hits, skipped := c.skipped + misses)
  }

  ghost predicate Repeats(env: Env, s: Store, t: Store, ms: seq<Mutation>, c: Counts) {
    && ImportAll(env, s, ms, c).0 == s.(links := Commits(env, t, s.links, ms))
    && ImportAll(env, s, ms, c).1 == Add(c, Hits(env, t, ms), |ms| - Hits(env, t, ms))
  }

  lemma AddStep(c: Counts, hit: bool, hits: nat, misses: nat)
    ensures Add(Count(if hit then Updated else Skipped, c), hits, misses)
         == Add(c, (if hit then 1 else 0) + hits, (if hit then 0 else 1) + misses)
  {
  }

  lemma RepeatsCons(env: Env, s: Store, t: Store, ms: seq<Mutation>, c: Counts, u: Store, o: Outcome)
    requires ms != [] && ImportAll(env, s, ms, c) == ImportAll(env, u, ms[1..], Count(o, c))
    requires u == s.(links := Commit(s.links, WouldWrite(env, t, ms[0])))
    requires o == if WouldWrite(env, t, ms[0]).Some? then Updated else Skipped
    requires Repeats(env, u, t, ms[1..], Count(o, c))
    ensures Repeats(env, s, t, ms, c)
  {
    var hits := Hits(env, t, ms[1..]);
    AddStep(c, WouldWrite(env, t, ms[0]).Some?, hits, |ms[1..]| - hits);
    assert Commits(env, t, s.links, ms) == Commits(env, t, u.links, ms[1..]);
  }

  lemma {:induction false} NextImport(env: Env, s: Store, t: Store, ms: seq<Mutation>, c: Counts)
    requires Picks(env) && Fresh(s) && AllParsed(ms) && AllSettled(env, t, ms) && Grows(t, s)
    ensures Repeats(env, s, t, ms, c)
    decreases |ms|
  {
    if ms != [] {
      var (u, o) := UpsertImportedLink(env, s, ms[0]);
      NextUpsert(env, s, t, ms[0]);
      NextTail(env, t, ms);
      NextImport(env, u, t, ms[1..], Count(o, c));
      assert ImportAll(env, s, ms, c) == ImportAll(env, u, ms[1..], Count(o, c));
      RepeatsCons(env, s, t, ms, c, u, o);
    }
  }

  lemma NextTail(env: Env, t: Store, ms: seq<Mutation>)
    requires ms != [] && AllParsed(ms) && AllSettled(env, t, ms)
    ensures AllParsed(ms[1..]) && AllSettled(env, t, ms[1..])
    ensures Parsed(ms[0]) && Settled(env, t, ms[0])
  {
  }

  lemma GrowsRefl(s: Store)
    ensures Grows(s, s)
  {
  }

  const NO_COUNTS := Counts(0, 0, 0, 0)

  // Importing the same parsed list again leaves every category and every link row as it is, creates
  // nothing, and reports the same numbers of imported and skipped links.
  lemma ImportTwice(env: Env, s: Store, ms: seq<Mutation>)
    requires Picks(env) && Fresh(s) && AllParsed(ms)
    ensures var (t, c) := ImportAll(env, s, ms, NO_COUNTS);
            var (u, d) := ImportAll(env, t, ms, NO_COUNTS);
            u == t && d == Counts(c.imported, 0, c.imported, c.skipped)
  {
    var (t, c) := ImportAll(env, s, ms, NO_COUNTS);
    FirstImport(env, s, ms, NO_COUNTS);
    GrowsRefl(t);
    NextImport(env, t, t, ms, NO_COUNTS);
    CommitsOverride(env, t, s.links, ms);
    CommitsOverride(env, t, t.links, ms);
  }

  // ---------------------------------------------------------------- why the orders must not be zero

  // The row a new link with sort order zero gets: the next free order of its category.
  lemma ZeroCreates(env: Env, s: Store, m: Mutation)
    requires m.categoryId.None? && m.sortOrder == 0 && !Refused(env, s, m) && MatchesOf(s, m) == {}
    ensures var t := WithCategory(s, NameOf(m));
            var id := t.categories[NameOf(m)].id;
            UpsertImportedLink(env, s, m)
            == (t.(links := s.links[t.next := RowOf(Tidy(m), id, NextSortOrder(t, id))], next := t.next + 1), Created)
  {
    NormalizeIdempotent(env, m);
    ZeroCreateLink(env, s, m);
  }

  lemma ZeroCreateLink(env: Env, s: Store, m: Mutation)
    requires m.categoryId.None? && m.sortOrder == 0 && !Refused(env, s, m)
    requires Normalize(env, Tidy(m)) == Some(Tidy(m))
    ensures var t := WithCategory(s, NameOf(m));
            var id := t.categories[NameOf(m)].id;
            CreateLink(env, s, Tidy(m))
            == (t.(links := s.links[t.next := RowOf(Tidy(m), id, NextSortOrder(t, id))], next := t.next + 1), Some(t.next))
  {
    EnsureShape(s, m);
    assert WithCategory(s, NameOf(m)).links == s.links;
    assert Tidy(m).sortOrder == 0 && Tidy(m).categoryId.None? && Tidy(m).categoryName == NameOf(m);
  }

  lemma ZeroUpdates(env: Env, s: Store, m: Mutation, r: nat)
    requires m.categoryId.None? && m.sortOrder == 0 && Acceptable(env, Tidy(m)) && NameOf(m) in s.categories
    requires MatchesOf(s, m) == {r} && env.pick({r}) == r && r in s.links
    ensures UpsertImportedLink(env, s, m).0
         == s.(links := s.links[r := RowOf(Tidy(m), s.categories[NameOf(m)].id, 0)])
  {
    NormalizeIdempotent(env, m);
    EnsureShape(s, m);
  }

  // A link without a sort order is created with the next free one and updated to zero the next time:
  // importing it twice is stable if and only if the next free order happens to be zero.
  lemma ZeroOrderExact(env: Env, s: Store, m: Mutation)
    requires Picks(env) && Fresh(s)
    requires m.categoryId.None? && m.sortOrder == 0 && !Refused(env, s, m) && MatchesOf(s, m) == {}
    ensures var t := UpsertImportedLink(env, s, m).0;
            var c := WithCategory(s, NameOf(m));
            UpsertImportedLink(env, t, m).0 == t <==> NextSortOrder(c, c.categories[NameOf(m)].id) == 0
  {
    var c := WithCategory(s, NameOf(m));
    var t := UpsertImportedLink(env, s, m).0;
    var id := c.categories[NameOf(m)].id;
    ZeroCreates(env, s, m);
    assert c.next !in s.links;
    MatchesCreate(s, t, c.next, t.links[c.next]);
    assert env.pick({c.next}) in {c.next};
    ZeroUpdates(env, t, m, c.next);
    assert t.links[c.next] == RowOf(Tidy(m), id, NextSortOrder(c, id));
  }

  // The concrete case: into an empty store the first import writes order 10 and the second order 0.
  lemma ZeroOrderWitness(env: Env, m: Mutation)
    requires Picks(env) && m.categoryId.None? && m.sortOrder == 0 && Acceptable(env, Tidy(m))
    ensures var t := UpsertImportedLink(env, Store(map[], map[], 0), m).0;
            UpsertImportedLink(env, t, m).0 != t
  {
    var s := Store(map[], map[], 0);
    var c := WithCategory(s, NameOf(m));
    assert MatchesOf(s, m) == {};
    ZeroOrderExact(env, s, m);
    assert NextSortOrder(c, 0) == 10;
  }
}
