/** What a stored link says: every field of a row, from the request that wrote it last. */
module LinkRows {
  import opened Common
  import opened Strings
  import opened Links
  import opened Import

  // ---------------------------------------------------------------- one row

  predicate StartsWithScheme(icon: string, lower: string, upper: string)
    requires |lower| == |upper|
  {
    |lower| <= |icon| && forall i :: 0 <= i < |lower| ==> icon[i] == lower[i] || icon[i] == upper[i]
  }

  predicate RemoteIcon(icon: string) {
    StartsWithScheme(icon, "http://", "HTTP://") || StartsWithScheme(icon, "https://", "HTTPS://")
  }

  // The kind of an icon: none, an address, a path, or a name.
  predicate KindFits(kind: string, icon: string) {
    && (icon == "" ==> kind == "favicon")
    && (icon != "" && RemoteIcon(icon) ==> kind == "url")
    && (icon != "" && !RemoteIcon(icon) && icon[0] == '/' ==> kind == "upload")
    && (icon != "" && !RemoteIcon(icon) && icon[0] != '/' ==> kind == "slug")
  }

  // The row says what the request says: texts trimmed, missing choices replaced by their defaults.
  predicate Shows(row: Row, m: Mutation) {
    && row.title == TrimSpace(m.title) && row.url == TrimSpace(m.url)
    && row.description == TrimSpace(m.description) && row.icon == TrimSpace(m.icon)
    && row.healthUrl == TrimSpace(m.healthUrl) && KindFits(row.iconKind, row.icon)
    && row.target == (if m.target == "" then "_blank" else m.target)
    && row.role == (if m.role == "" then "viewer" else m.role)
    && row.status == (if m.status == "" then "unknown" else m.status)
    && row.source == (if TrimSpace(m.source) == "" then "manual" else TrimSpace(m.source))
  }

  lemma KindOf(icon: string)
    requires Trimmed(icon)
    ensures KindFits(IconKind(icon), icon)
  {
    TrimSpaceTrimmed(icon);
    FoldIs(icon, "http://", "HTTP://");
    FoldIs(icon, "https://", "HTTPS://");
    assert "/" <= icon <==> icon != "" && icon[0] == '/';
  }

  lemma FoldChar(c: char, lower: char, upper: char)
    requires if 'a' <= lower <= 'z' then lower != 'k' && lower != 'i' && (upper as int) + 32 == lower as int
             else upper == lower && lower < 'A'
    ensures Lower(c) == lower <==> c == lower || c == upper
  {
    if 'a' <= lower <= 'z' {
      assert 'a' as int <= lower as int <= 'z' as int;
      assert 'A' as int <= upper as int <= 'Z' as int;
      assert 'A' <= upper <= 'Z';
    }
    if 'A' <= c <= 'Z' {
      assert (Lower(c) as int) == (c as int) + 32;
      assert Lower(c) == lower <==> Lower(c) as int == lower as int;
      assert c == upper <==> c as int == upper as int;
    }
  }

  lemma FoldIs(icon: string, lower: string, upper: string)
    requires |lower| == |upper|
    requires forall i :: 0 <= i < |lower| ==>
               if 'a' <= lower[i] <= 'z' then lower[i] != 'k' && lower[i] != 'i' && (upper[i] as int) + 32 == lower[i] as int
               else upper[i] == lower[i] && lower[i] < 'A'
    ensures HasPrefixFold(icon, lower) <==> StartsWithScheme(icon, lower, upper)
  {
    if |lower| <= |icon| {
      forall i | 0 <= i < |lower|
        ensures Lower(icon[i]) == lower[i] <==> icon[i] == lower[i] || icon[i] == upper[i]
      {
        FoldChar(icon[i], lower[i], upper[i]);
      }
    }
  }

  lemma RowShows(m: Mutation, category: nat, order: int)
    ensures Shows(RowOf(Tidy(m), category, order), m)
    ensures RowOf(Tidy(m), category, order).category == category && RowOf(Tidy(m), category, order).sortOrder == order
  {
    TrimSpaceTrimmed(m.icon);
    KindOf(TrimSpace(m.icon));
  }

  // ---------------------------------------------------------------- what is accepted

  predicate MayStore(env: Env, m: Mutation) {
    && TrimSpace(m.title) != "" && env.validUrl(TrimSpace(m.url))
    && (TrimSpace(m.healthUrl) != "" ==> env.validUrl(TrimSpace(m.healthUrl)))
    && m.target in {"", "_blank", "_self"} && m.role in {"", "viewer", "operator", "admin"}
  }

  lemma AcceptedExact(env: Env, m: Mutation)
    ensures Normalize(env, m).Some? <==> MayStore(env, m)
  {
  }

  // The category named, or General.
  function Wanted(m: Mutation): string {
    if TrimSpace(m.categoryName) == "" then "General" else TrimSpace(m.categoryName)
  }

  // The category exists, by id or by name, or its name gives a slug that is free.
  predicate HasRoom(s: Store, m: Mutation) {
    || (m.categoryId.Some? && HasCategoryId(s, m.categoryId.value))
    || Wanted(m) in s.categories
    || forall name :: name in s.categories ==> s.categories[name].slug != CategorySlug(Wanted(m))
  }

  // Categories are kept, and at most the wanted one is added, last in order, under an unused id.
  predicate CategoriesKept(s: Store, t: Store, m: Mutation) {
    t.categories == s.categories
    || (Wanted(m) !in s.categories
        && t.categories == s.categories[Wanted(m) := Category(s.next, CategorySlug(Wanted(m)), 100)])
  }

  // The row's category is the one given by id, or the one of the wanted name.
  predicate Filed(t: Store, s: Store, category: nat, m: Mutation) {
    if m.categoryId.Some? && HasCategoryId(s, m.categoryId.value) then category == m.categoryId.value
    else Wanted(m) in t.categories && t.categories[Wanted(m)].id == category
  }

  lemma WantedName(m: Mutation)
    ensures OrElse(TrimSpace(Tidy(m).categoryName), "General") == Wanted(m)
  {
    TrimTwice(m.categoryName, "General");
    TrimSpaceTrimmed(m.categoryName);
  }

  lemma EnsuredByName(s: Store, m: Mutation)
    requires !(m.categoryId.Some? && HasCategoryId(s, m.categoryId.value))
    ensures var (t, category) := EnsureByName(s, Wanted(m));
            && (category.Some? <==> HasRoom(s, m)) && CategoriesKept(s, t, m) && t.links == s.links
            && (category.Some? ==> Filed(t, s, category.value, m))
            && (category.None? ==> t == s) && s.next <= t.next
  {
  }

  lemma Ensured(s: Store, m: Mutation)
    ensures var (t, category) := EnsureCategory(s, Tidy(m).categoryId, Tidy(m).categoryName);
            && (category.Some? <==> HasRoom(s, m)) && CategoriesKept(s, t, m) && t.links == s.links
            && (category.Some? ==> Filed(t, s, category.value, m))
            && (category.None? ==> t == s) && s.next <= t.next
  {
    WantedName(m);
    if !(m.categoryId.Some? && HasCategoryId(s, m.categoryId.value)) {
      EnsuredByName(s, m);
    }
  }

  // An order given is kept; else the next one: ten above the largest in the category, or ten.
  ghost predicate Placed(links: map<nat, Row>, category: nat, given: int, order: int) {
    if given != 0 then order == given
    else
      && (forall r :: r in links && links[r].category == category ==> links[r].sortOrder + 10 <= order)
      && ((order == 10 && forall r :: r in links ==> links[r].category != category)
          || exists r :: r in links && links[r].category == category && links[r].sortOrder + 10 == order)
  }

  lemma NextPlaced(s: Store, category: nat)
    ensures Placed(s.links, category, 0, NextSortOrder(s, category))
  {
    var orders := set r | r in s.links && s.links[r].category == category :: s.links[r].sortOrder;
    var m := MaxOrder(orders);
    forall r | r in s.links && s.links[r].category == category
      ensures s.links[r].sortOrder in orders
    {
    }
    if IsMax(orders, m) {
      var r :| r in s.links && s.links[r].category == category && s.links[r].sortOrder == m;
    }
  }

  // Creating a link: when it succeeds, and every field of the one row that is added.
  lemma CreateStores(env: Env, s: Store, m: Mutation)
    ensures var (t, id) := CreateLink(env, s, m);
            && (id.Some? <==> MayStore(env, m) && HasRoom(s, m))
            && CategoriesKept(s, t, m)
            && (id.None? ==> t.links == s.links)
            && (id.Some? ==>
                  && s.next <= id.value && id.value in t.links && t.links == s.links[id.value := t.links[id.value]]
                  && Shows(t.links[id.value], m) && Filed(t, s, t.links[id.value].category, m)
                  && Placed(s.links, t.links[id.value].category, m.sortOrder, t.links[id.value].sortOrder))
  {
    AcceptedExact(env, m);
    if MayStore(env, m) {
      Ensured(s, m);
      var (u, category) := EnsureCategory(s, Tidy(m).categoryId, Tidy(m).categoryName);
      if category.Some? {
        var order := if m.sortOrder == 0 then NextSortOrder(u, category.value) else m.sortOrder;
        NextPlaced(u, category.value);
        RowShows(m, category.value, order);
      }
    }
  }

  // Updating one: the same, for the row that was there.
  lemma UpdateStores(env: Env, s: Store, id: nat, m: Mutation)
    ensures var (t, updated) := UpdateLink(env, s, id, m);
            && (updated.Some? <==> MayStore(env, m) && HasRoom(s, m) && id in s.links)
            && CategoriesKept(s, t, m)
            && (updated.None? ==> t.links == s.links)
            && (updated.Some? ==>
                  && updated.value == id && id in t.links && t.links == s.links[id := t.links[id]]
                  && Shows(t.links[id], m) && Filed(t, s, t.links[id].category, m) && t.links[id].sortOrder == m.sortOrder)
  {
    AcceptedExact(env, m);
    if MayStore(env, m) {
      Ensured(s, m);
      var (u, category) := EnsureCategory(s, Tidy(m).categoryId, Tidy(m).categoryName);
      if category.Some? {
        RowShows(m, category.value, m.sortOrder);
      }
    }
  }

  // ---------------------------------------------------------------- after an import

  // Two links stand for the same row.
  predicate SameKey(m: Mutation, title: string, url: string) {
    TrimSpace(m.title) == title && TrimSpace(m.url) == url
  }

  // No link of the list with this title and address is accepted.
  ghost predicate NoneAccepted(env: Env, s: Store, ms: seq<Mutation>, title: string, url: string)
    decreases |ms|
  {
    ms == [] ||
    (!(SameKey(ms[0], title, url) && !UpsertImportedLink(env, s, ms[0]).1.Skipped?)
     && NoneAccepted(env, UpsertImportedLink(env, s, ms[0]).0, ms[1..], title, url))
  }

  // Link i is the last accepted one with its title and address.
  ghost predicate LastAccepted(env: Env, s: Store, ms: seq<Mutation>, i: nat)
    requires i < |ms|
    decreases |ms|
  {
    var u := UpsertImportedLink(env, s, ms[0]);
    if i == 0 then !u.1.Skipped? && NoneAccepted(env, u.0, ms[1..], TrimSpace(ms[0].title), TrimSpace(ms[0].url))
    else LastAccepted(env, u.0, ms[1..], i - 1)
  }

  // The row found for a title and address shows the link, in the order and category it asks for.
  ghost predicate Holds(env: Env, t: Store, m: Mutation) {
    var found := Matches(t, TrimSpace(m.title), TrimSpace(m.url));
    found != {} && env.pick(found) in t.links && Shows(t.links[env.pick(found)], m)
    && t.links[env.pick(found)].sortOrder == m.sortOrder
    && Wanted(m) in t.categories && t.categories[Wanted(m)].id == t.links[env.pick(found)].category
  }

  lemma UpsertHolds(env: Env, s: Store, m: Mutation)
    requires Parsed(m) && Picks(env) && Fresh(s) && !UpsertImportedLink(env, s, m).1.Skipped?
    ensures Holds(env, UpsertImportedLink(env, s, m).0, m)
  {
    UpsertShape(env, s, m);
    UpsertSettles(env, s, m);
    var t := UpsertImportedLink(env, s, m).0;
    var w := WouldWrite(env, t, m);
    assert w.Some? && t.links[w.value.row] == w.value.content;
    RowShows(m, t.categories[NameOf(m)].id, m.sortOrder);
    assert NameOf(m) == Wanted(m);
    assert MatchesOf(t, m) == Matches(t, TrimSpace(m.title), TrimSpace(m.url));
  }

  // A later link with another title or address, or one that is skipped, leaves the row alone.
  lemma UpsertKeeps(env: Env, s: Store, m: Mutation, k: Mutation)
    requires Parsed(m) && Picks(env) && Fresh(s) && Holds(env, s, k)
    requires !SameKey(m, TrimSpace(k.title), TrimSpace(k.url)) || UpsertImportedLink(env, s, m).1.Skipped?
    ensures Holds(env, UpsertImportedLink(env, s, m).0, k)
  {
    var (t, o) := UpsertImportedLink(env, s, m);
    UpsertShape(env, s, m);
    UpsertSettles(env, s, m);
    var found := Matches(s, TrimSpace(k.title), TrimSpace(k.url));
    assert Matches(t, TrimSpace(k.title), TrimSpace(k.url)) == found;
    var r := env.pick(found);
    assert r in found;
    var w := WouldWrite(env, t, m);
    if w.Some? {
      assert w.value.row in MatchesOf(t, m);
      assert w.value.row != r;
    }
    assert t.links[r] == s.links[r];
  }

  lemma {:induction false} TailKeeps(env: Env, s: Store, ms: seq<Mutation>, k: Mutation, c: Counts)
    requires AllParsed(ms) && Picks(env) && Fresh(s) && Holds(env, s, k)
    requires NoneAccepted(env, s, ms, TrimSpace(k.title), TrimSpace(k.url))
    ensures Holds(env, ImportAll(env, s, ms, c).0, k)
    decreases |ms|
  {
    if ms != [] {
      var u := UpsertImportedLink(env, s, ms[0]);
      UpsertKeeps(env, s, ms[0], k);
      UpsertSettles(env, s, ms[0]);
      TailKeeps(env, u.0, ms[1..], k, Count(u.1, c));
    }
  }

  lemma ImportCons(env: Env, s: Store, ms: seq<Mutation>, c: Counts)
    requires ms != []
    ensures var u := UpsertImportedLink(env, s, ms[0]);
            ImportAll(env, s, ms, c) == ImportAll(env, u.0, ms[1..], Count(u.1, c))
  {
  }

  lemma FirstWins(env: Env, s: Store, ms: seq<Mutation>, c: Counts)
    requires AllParsed(ms) && Picks(env) && Fresh(s) && ms != [] && !UpsertImportedLink(env, s, ms[0]).1.Skipped?
    requires NoneAccepted(env, UpsertImportedLink(env, s, ms[0]).0, ms[1..], TrimSpace(ms[0].title), TrimSpace(ms[0].url))
    ensures Holds(env, ImportAll(env, s, ms, c).0, ms[0])
  {
    var u := UpsertImportedLink(env, s, ms[0]);
    UpsertSettles(env, s, ms[0]);
    UpsertHolds(env, s, ms[0]);
    TailKeeps(env, u.0, ms[1..], ms[0], Count(u.1, c));
    ImportCons(env, s, ms, c);
  }

  lemma UpsertFresh(env: Env, s: Store, m: Mutation)
    requires Parsed(m) && Picks(env) && Fresh(s)
    ensures Fresh(UpsertImportedLink(env, s, m).0)
  {
    UpsertSettles(env, s, m);
  }

  // Last writer wins: after importing a list, the row for a title and address has every field of the
  // last accepted link with them.
  lemma {:induction false} LastWins(env: Env, s: Store, ms: seq<Mutation>, i: nat, c: Counts)
    requires AllParsed(ms) && Picks(env) && Fresh(s) && i < |ms| && LastAccepted(env, s, ms, i)
    ensures Holds(env, ImportAll(env, s, ms, c).0, ms[i])
    decreases |ms|
  {
    if i == 0 {
      FirstWins(env, s, ms, c);
    } else {
      var u := UpsertImportedLink(env, s, ms[0]);
      UpsertFresh(env, s, ms[0]);
      LastWins(env, u.0, ms[1..], i - 1, Count(u.1, c));
      ImportCons(env, s, ms, c);
    }
  }

  // And a link is accepted exactly when it may be stored and its category exists or can be added.
  lemma AcceptsExactly(env: Env, s: Store, m: Mutation)
    requires Parsed(m) && Picks(env) && Fresh(s)
    ensures !UpsertImportedLink(env, s, m).1.Skipped? <==> MayStore(env, m) && HasRoom(s, m)
  {
    UpsertShape(env, s, m);
    AcceptedExact(env, m);
    assert NameOf(m) == Wanted(m);
  }
}
