/** The link store: categories with unique names and slugs, links, and the imported-link upsert. */
module Links {
  import opened Common
  import opened Strings

  datatype Mutation = Mutation(
    categoryId: Option<nat>, categoryName: string, title: string, url: string, description: string,
    icon: string, target: string, role: string, healthUrl: string, sortOrder: int, status: string, source: string)

  // A category row; the table is keyed by its unique name.
  datatype Category = Category(id: nat, slug: string, sortOrder: int)

  datatype Row = Row(
    category: nat, title: string, url: string, description: string, icon: string, iconKind: string,
    target: string, role: string, healthUrl: string, sortOrder: int, status: string, source: string)

  // `next` is the next unused id: generated ids are never repeated.
  datatype Store = Store(categories: map<string, Category>, links: map<nat, Row>, next: nat)

  // What the store relies on and does not define: which URLs parse as http(s) with a host, and which
  // row a lookup limited to one row returns when several match.
  datatype Env = Env(validUrl: string -> bool, pick: set<nat> -> nat)

  ghost predicate Picks(env: Env) {
    forall s: set<nat> :: s != {} ==> env.pick(s) in s
  }

  // ---------------------------------------------------------------- slugs

  // strings.ToLower, as far as it decides which characters become ASCII letters or digits: besides
  // the ASCII capitals, the Kelvin sign and the dotted capital I have ASCII lower-case forms.
  function Lower(c: char): char {
    if 'A' <= c <= 'Z' then ((c as int) + 32) as char
    else if c == '\U{212A}' then 'k'
    else if c == '\U{0130}' then 'i'
    else c
  }

  predicate SlugChar(c: char) {
    'a' <= c <= 'z' || '0' <= c <= '9'
  }

  function Dashed(input: string, lastDash: bool): string {
    if input == [] then ""
    else if SlugChar(Lower(input[0])) then [Lower(input[0])] + Dashed(input[1..], false)
    else (if lastDash then "" else "-") + Dashed(input[1..], true)
  }

  function TrimDashLeft(s: string): string {
    if s != [] && s[0] == '-' then TrimDashLeft(s[1..]) else s
  }

  function TrimDashRight(s: string): string {
    if s != [] && s[|s| - 1] == '-' then TrimDashRight(s[..|s| - 1]) else s
  }

  function SlugOf(input: string): string {
    TrimDashRight(TrimDashLeft(Dashed(input, false)))
  }

  lemma {:induction false} DashedSnoc(input: string, c: char, lastDash: bool)
    ensures Dashed(input + [c], lastDash)
         == Dashed(input, lastDash)
            + (if SlugChar(Lower(c)) then [Lower(c)]
               else if EndsInDash(input, lastDash) then "" else "-")
    decreases |input|
  {
    if input == [] {
      assert input + [c] == [c] && [c][1..] == [];
      assert Dashed([], true) == Dashed([], false) == "";
    } else {
      assert (input + [c])[1..] == input[1..] + [c];
      DashedSnoc(input[1..], c, !SlugChar(Lower(input[0])));
    }
  }

  predicate EndsInDash(input: string, lastDash: bool) {
    if input == [] then lastDash else !SlugChar(Lower(input[|input| - 1]))
  }

  // slugify: a loop with a flag that collapses runs of other characters into one dash.
  method Slugify(input: string) returns (slug: string)
    ensures slug == SlugOf(input)
  {
    var b := "";
    var lastDash := false;
    for i := 0 to |input|
      invariant b == Dashed(input[..i], false)
      invariant lastDash == EndsInDash(input[..i], false)
    {
      assert input[..i + 1] == input[..i] + [input[i]];
      DashedSnoc(input[..i], input[i], false);
      var r := Lower(input[i]);
      if SlugChar(r) {
        b := b + [r];
        lastDash := false;
      } else if !lastDash {
        b := b + "-";
        lastDash := true;
      }
    }
    assert input[..|input|] == input;
    slug := TrimDashRight(TrimDashLeft(b));
  }

  predicate NoDoubleDash(s: string) {
    forall i :: 0 <= i < |s| - 1 ==> s[i] != '-' || s[i + 1] != '-'
  }

  predicate SlugText(s: string) {
    forall i :: 0 <= i < |s| ==> SlugChar(s[i]) || s[i] == '-'
  }

  // A slug: lower-case letters and digits, separated by single dashes.
  predicate Canonical(s: string) {
    SlugText(s) && NoDoubleDash(s) && (s != [] ==> s[0] != '-' && s[|s| - 1] != '-')
  }

  lemma {:induction false} DashedShape(input: string, lastDash: bool)
    ensures var d := Dashed(input, lastDash);
            SlugText(d) && NoDoubleDash(d) && (lastDash && d != [] ==> d[0] != '-')
    decreases |input|
  {
    if input != [] {
      DashedShape(input[1..], !SlugChar(Lower(input[0])));
    }
  }

  lemma {:induction false} TrimLeftShape(s: string)
    requires SlugText(s) && NoDoubleDash(s)
    ensures var t := TrimDashLeft(s); SlugText(t) && NoDoubleDash(t) && (t != [] ==> t[0] != '-')
  {
    if s != [] && s[0] == '-' {
      TrimLeftShape(s[1..]);
    }
  }

  lemma {:induction false} TrimRightShape(s: string)
    requires SlugText(s) && NoDoubleDash(s) && (s != [] ==> s[0] != '-')
    ensures Canonical(TrimDashRight(s))
  {
    if s != [] && s[|s| - 1] == '-' {
      TrimRightShape(s[..|s| - 1]);
    }
  }

  lemma {:induction false} CanonicalDashed(s: string, lastDash: bool)
    requires SlugText(s) && NoDoubleDash(s) && (lastDash && s != [] ==> s[0] != '-')
    ensures Dashed(s, lastDash) == s
    decreases |s|
  {
    if s != [] {
      assert SlugChar(s[0]) || s[0] == '-';
      CanonicalDashed(s[1..], !SlugChar(s[0]));
      assert s == [s[0]] + s[1..];
    }
  }

  // Every slug is in canonical form and canonical names are their own slugs, so slugs are stable.
  lemma SlugCanonical(input: string)
    ensures Canonical(SlugOf(input))
    ensures Canonical(input) ==> SlugOf(input) == input
    ensures SlugOf(SlugOf(input)) == SlugOf(input)
  {
    DashedShape(input, false);
    TrimLeftShape(Dashed(input, false));
    TrimRightShape(TrimDashLeft(Dashed(input, false)));
    CanonicalDashed(SlugOf(input), false);
    if Canonical(input) {
      CanonicalDashed(input, false);
    }
  }

  // The words of a name: its longest runs of letters and digits, lower-cased; `word` is one begun.
  function WordsFrom(input: string, word: string): seq<string>
    decreases |input|
  {
    if input == [] then (if word == "" then [] else [word])
    else if SlugChar(Lower(input[0])) then WordsFrom(input[1..], word + [Lower(input[0])])
    else (if word == "" then [] else [word]) + WordsFrom(input[1..], "")
  }

  lemma LeftTrimmed(input: string)
    ensures TrimDashLeft(Dashed(input, false)) == Dashed(input, true)
  {
    if input != [] && !SlugChar(Lower(input[0])) {
      DashedStart(input[1..]);
      assert Dashed(input, false) == "-" + Dashed(input[1..], true);
      assert Dashed(input, false)[1..] == Dashed(input[1..], true);
    }
  }

  lemma {:induction false} DashedStart(input: string)
    ensures Dashed(input, true) != [] ==> Dashed(input, true)[0] != '-'
  {
    if input != [] && !SlugChar(Lower(input[0])) {
      DashedStart(input[1..]);
    }
  }

  lemma {:induction false} TrimRightAfter(a: string, b: string)
    requires TrimDashRight(b) != ""
    ensures TrimDashRight(a + b) == a + TrimDashRight(b)
    decreases |b|
  {
    if b != [] && b[|b| - 1] == '-' {
      assert (a + b)[..|a + b| - 1] == a + b[..|b| - 1];
      TrimRightAfter(a, b[..|b| - 1]);
    }
  }

  predicate SlugWord(w: string) {
    w != "" && forall i :: 0 <= i < |w| ==> SlugChar(w[i])
  }

  lemma {:induction false} WordsNonEmpty(input: string, word: string)
    ensures forall i :: 0 <= i < |WordsFrom(input, word)| ==> WordsFrom(input, word)[i] != ""
    ensures word != "" ==> WordsFrom(input, word) != []
    decreases |input|
  {
    if input != [] {
      if SlugChar(Lower(input[0])) {
        WordsNonEmpty(input[1..], word + [Lower(input[0])]);
      } else {
        WordsNonEmpty(input[1..], "");
      }
    }
  }

  lemma {:induction false} NoWords(input: string)
    requires WordsFrom(input, "") == []
    ensures Dashed(input, true) == ""
    decreases |input|
  {
    if input != [] {
      if SlugChar(Lower(input[0])) {
        WordsNonEmpty(input[1..], "" + [Lower(input[0])]);
      } else {
        NoWords(input[1..]);
      }
    }
  }

  lemma JoinWords(w: string, ws: seq<string>)
    ensures Join([w] + ws, "-") == if ws == [] then w else w + "-" + Join(ws, "-")
  {
    assert ([w] + ws)[1..] == ws;
  }

  lemma {:induction false} BetweenWords(input: string)
    ensures TrimDashRight(Dashed(input, true)) == Join(WordsFrom(input, ""), "-")
    decreases |input|, 0
  {
    if input != [] {
      if SlugChar(Lower(input[0])) {
        var w := "" + [Lower(input[0])];
        InsideWord(w, input[1..]);
        assert Dashed(input, true) == w + Dashed(input[1..], false);
      } else {
        BetweenWords(input[1..]);
        assert Dashed(input, true) == Dashed(input[1..], true);
        assert [] + WordsFrom(input[1..], "") == WordsFrom(input[1..], "");
      }
    }
  }

  lemma {:induction false} InsideWord(w: string, input: string)
    requires SlugWord(w)
    ensures TrimDashRight(w + Dashed(input, false)) == Join(WordsFrom(input, w), "-")
    decreases |input|, 1
  {
    if input == [] {
      assert w + Dashed(input, false) == w;
      assert SlugChar(w[|w| - 1]);
      JoinWords(w, []);
      assert [w] + [] == [w];
    } else if SlugChar(Lower(input[0])) {
      InsideWord(w + [Lower(input[0])], input[1..]);
      assert w + Dashed(input, false) == w + [Lower(input[0])] + Dashed(input[1..], false);
    } else {
      AfterWord(w, input);
    }
  }

  lemma {:induction false} AfterWord(w: string, input: string)
    requires SlugWord(w) && input != [] && !SlugChar(Lower(input[0]))
    ensures TrimDashRight(w + Dashed(input, false)) == Join(WordsFrom(input, w), "-")
    decreases |input|, 0
  {
    var d, ws := Dashed(input[1..], true), WordsFrom(input[1..], "");
    BetweenWords(input[1..]);
    WordsNonEmpty(input[1..], "");
    JoinWords(w, ws);
    assert w + Dashed(input, false) == (w + "-") + d;
    if ws == [] {
      NoWords(input[1..]);
      assert (w + "-") + d == w + "-";
      assert (w + "-")[..|w|] == w;
      assert SlugChar(w[|w| - 1]);
    } else {
      assert Join(ws, "-") != "" by {
        assert ws == [ws[0]] + ws[1..];
        JoinWords(ws[0], ws[1..]);
      }
      TrimRightAfter(w + "-", d);
    }
  }

  // A slug is the words of the name joined by dashes.
  lemma SlugWords(input: string)
    ensures SlugOf(input) == Join(WordsFrom(input, ""), "-")
  {
    LeftTrimmed(input);
    BetweenWords(input);
  }

  function CategorySlug(name: string): string {
    if SlugOf(name) == "" then "category" else SlugOf(name)
  }

  // ---------------------------------------------------------------- normalisation

  function OrElse(s: string, fallback: string): string {
    if s == "" then fallback else s
  }

  // Trimmed fields and default values.
  function Tidy(m: Mutation): Mutation {
    var name := TrimSpace(m.categoryName);
    m.(title := TrimSpace(m.title), url := TrimSpace(m.url), description := TrimSpace(m.description),
       icon := TrimSpace(m.icon), healthUrl := TrimSpace(m.healthUrl),
       source := OrElse(TrimSpace(m.source), "manual"), target := OrElse(m.target, "_blank"),
       role := OrElse(m.role, "viewer"), status := OrElse(m.status, "unknown"),
       categoryName := if m.categoryId.None? then OrElse(name, "General") else name)
  }

  predicate Acceptable(env: Env, n: Mutation) {
    && n.title != "" && env.validUrl(n.url)
    && (n.healthUrl != "" ==> env.validUrl(n.healthUrl))
    && n.target in {"_blank", "_self"} && n.role in {"viewer", "operator", "admin"}
  }

  function Normalize(env: Env, m: Mutation): Option<Mutation> {
    if Acceptable(env, Tidy(m)) then Some(Tidy(m)) else None
  }

  lemma TrimTwice(s: string, fallback: string)
    requires Trimmed(fallback)
    ensures TrimSpace(TrimSpace(s)) == TrimSpace(s)
    ensures OrElse(TrimSpace(OrElse(TrimSpace(s), fallback)), fallback) == OrElse(TrimSpace(s), fallback)
  {
    TrimSpaceTrimmed(s);
    TrimSpaceTrimmed(fallback);
  }

  lemma TidyTexts(m: Mutation)
    ensures var n := Tidy(m);
            TrimSpace(n.title) == n.title && TrimSpace(n.url) == n.url && TrimSpace(n.description) == n.description
            && TrimSpace(n.icon) == n.icon && TrimSpace(n.healthUrl) == n.healthUrl
  {
    TrimSpaceTrimmed(m.title);
    TrimSpaceTrimmed(m.url);
    TrimSpaceTrimmed(m.description);
    TrimSpaceTrimmed(m.icon);
    TrimSpaceTrimmed(m.healthUrl);
  }

  // Normalising what was normalised changes nothing, so the second pass inside update and create is
  // harmless.
  lemma NormalizeIdempotent(env: Env, m: Mutation)
    ensures Tidy(Tidy(m)) == Tidy(m)
    ensures Normalize(env, Tidy(m)) == Normalize(env, m)
  {
    TidyTexts(m);
    TrimTwice(m.source, "manual");
    TrimTwice(m.categoryName, "General");
  }

  function HasPrefixFold(s: string, prefix: string): bool {
    |prefix| <= |s| && forall i :: 0 <= i < |prefix| ==> Lower(s[i]) == prefix[i]
  }

  function IconKind(icon: string): string {
    var trimmed := TrimSpace(icon);
    if trimmed == "" then "favicon"
    else if HasPrefixFold(trimmed, "http://") || HasPrefixFold(trimmed, "https://") then "url"
    else if "/" <= trimmed then "upload"
    else "slug"
  }

  // ---------------------------------------------------------------- the store's operations

  predicate SlugTaken(s: Store, slug: string) {
    exists name :: name in s.categories && s.categories[name].slug == slug
  }

  predicate HasCategoryId(s: Store, id: nat) {
    exists name :: name in s.categories && s.categories[name].id == id
  }

  function EnsureByName(s: Store, name: string): (Store, Option<nat>) {
    if name in s.categories then (s, Some(s.categories[name].id))
    else if SlugTaken(s, CategorySlug(name)) then (s, None)
    else
      (s.(categories := s.categories[name := Category(s.next, CategorySlug(name), 100)], next := s.next + 1),
       Some(s.next))
  }

  // ensureCategory: by id, else by name, else a new row, which the unique slug may refuse.
  function EnsureCategory(s: Store, id: Option<nat>, rawName: string): (Store, Option<nat>) {
    if id.Some? && HasCategoryId(s, id.value) then (s, id)
    else EnsureByName(s, OrElse(TrimSpace(rawName), "General"))
  }

  function RowOf(n: Mutation, category: nat, sortOrder: int): Row {
    Row(category, n.title, n.url, n.description, n.icon, IconKind(n.icon), n.target, n.role, n.healthUrl,
        sortOrder, n.status, n.source)
  }

  function Matches(s: Store, title: string, url: string): set<nat> {
    set r | r in s.links && s.links[r].title == title && s.links[r].url == url
  }

  ghost predicate IsMax(orders: set<int>, m: int) {
    m in orders && forall o :: o in orders ==> o <= m
  }

  lemma MaxExists(orders: set<int>, some: int) returns (m: int)
    requires some in orders
    ensures IsMax(orders, m)
    decreases |orders|
  {
    var rest := orders - {some};
    m := some;
    if o :| o in rest {
      var n := MaxExists(rest, o);
      m := if n < some then some else n;
    }
    assert forall o :: o in orders ==> o == some || o in rest;
  }

  lemma NoMax(orders: set<int>)
    requires !exists m :: IsMax(orders, m)
    ensures forall o :: o !in orders
  {
    if some :| some in orders {
      var m := MaxExists(orders, some);
      assert false;
    }
  }

  // The largest order in use, or zero when there is none.
  ghost function MaxOrder(orders: set<int>): (r: int)
    ensures IsMax(orders, r) || (r == 0 && forall o :: o !in orders)
  {
    if exists m :: IsMax(orders, m) then
      var m :| IsMax(orders, m);
      m
    else
      NoMax(orders);
      0
  }

  // Ten above the largest order in the category.
  ghost function NextSortOrder(s: Store, category: nat): int {
    MaxOrder(set r | r in s.links && s.links[r].category == category :: s.links[r].sortOrder) + 10
  }

  ghost function CreateLink(env: Env, s: Store, m: Mutation): (Store, Option<nat>) {
    var n := Normalize(env, m);
    if n.None? then (s, None)
    else
      var (t, category) := EnsureCategory(s, n.value.categoryId, n.value.categoryName);
      if category.None? then (t, None)
      else
        var order := if n.value.sortOrder == 0 then NextSortOrder(t, category.value) else n.value.sortOrder;
        (t.(links := t.links[t.next := RowOf(n.value, category.value, order)], next := t.next + 1), Some(t.next))
  }

  ghost function UpdateLink(env: Env, s: Store, id: nat, m: Mutation): (Store, Option<nat>) {
    var n := Normalize(env, m);
    if n.None? then (s, None)
    else
      var (t, category) := EnsureCategory(s, n.value.categoryId, n.value.categoryName);
      if category.None? then (t, None)
      else if id !in t.links then (t, None)
      else (t.(links := t.links[id := RowOf(n.value, category.value, n.value.sortOrder)]), Some(id))
  }

  datatype Outcome = Created | Updated | Skipped

  ghost function UpsertImportedLink(env: Env, s: Store, m: Mutation): (Store, Outcome) {
    var n := Normalize(env, m);
    if n.None? then (s, Skipped)
    else
      var found := Matches(s, n.value.title, n.value.url);
      if found != {} then
        var (t, id) := UpdateLink(env, s, env.pick(found), n.value);
        (t, if id.Some? then Updated else Skipped)
      else
        var (t, id) := CreateLink(env, s, n.value);
        (t, if id.Some? then Created else Skipped)
  }
}
