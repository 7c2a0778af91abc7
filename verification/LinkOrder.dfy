/** The order links are imported in: SortMutationsByOrder and what it does to each file's sections. */
module LinkOrder {
  import opened Common
  import opened Strings
  import opened Links

  predicate Before(a: Mutation, b: Mutation) {
    if a.categoryName == b.categoryName then a.sortOrder < b.sortOrder
    else Le(a.categoryName, b.categoryName)
  }

  function InsertStable(x: Mutation, s: seq<Mutation>): seq<Mutation> {
    if s != [] && Before(s[0], x) then [s[0]] + InsertStable(x, s[1..]) else [x] + s
  }

  // SortMutationsByOrder: a stable sort by category name, then sort order.
  function SortByOrder(s: seq<Mutation>): seq<Mutation> {
    if s == [] then [] else InsertStable(s[0], SortByOrder(s[1..]))
  }

  ghost predicate InOrder(s: seq<Mutation>) {
    forall i, j :: 0 <= i < j < |s| ==> !Before(s[j], s[i])
  }

  // The links of one file with one category name.
  predicate Of(m: Mutation, source: string, name: string) {
    m.source == source && m.categoryName == name
  }

  function Pick(source: string, name: string): Mutation -> seq<Mutation> {
    m => if Of(m, source, name) then [m] else []
  }

  function Section(s: seq<Mutation>, source: string, name: string): seq<Mutation> {
    FlatMap(Pick(source, name), s)
  }

  ghost predicate Rising(s: seq<Mutation>) {
    forall i, j :: 0 <= i < j < |s| ==> s[i].sortOrder <= s[j].sortOrder
  }

  lemma {:induction false} InsertPermutes(x: Mutation, s: seq<Mutation>)
    ensures multiset(InsertStable(x, s)) == multiset(s) + multiset{x}
  {
    if s != [] && Before(s[0], x) {
      InsertPermutes(x, s[1..]);
      assert s == [s[0]] + s[1..];
    }
  }

  lemma {:induction false} SortPermutes(s: seq<Mutation>)
    ensures multiset(SortByOrder(s)) == multiset(s)
  {
    if s != [] {
      SortPermutes(s[1..]);
      InsertPermutes(s[0], SortByOrder(s[1..]));
      assert s == [s[0]] + s[1..];
    }
  }

  lemma BeforeTrans(a: Mutation, b: Mutation, c: Mutation)
    requires !Before(b, a) && !Before(c, b)
    ensures !Before(c, a)
  {
    LeTotal(a.categoryName, b.categoryName);
    LeTotal(b.categoryName, c.categoryName);
    if Le(a.categoryName, b.categoryName) && Le(b.categoryName, c.categoryName) {
      LeTrans(a.categoryName, b.categoryName, c.categoryName);
      if Le(c.categoryName, a.categoryName) {
        LeAntisym(a.categoryName, c.categoryName);
        LeAntisym(a.categoryName, b.categoryName);
      }
    }
  }

  lemma {:induction false} InsertInOrder(x: Mutation, s: seq<Mutation>)
    requires InOrder(s)
    ensures InOrder(InsertStable(x, s))
  {
    if s != [] && Before(s[0], x) {
      InsertInOrder(x, s[1..]);
      var r := InsertStable(x, s[1..]);
      InsertPermutes(x, s[1..]);
      forall j | 0 <= j < |r|
        ensures !Before(r[j], s[0])
      {
        assert r[j] in multiset(r);
        if r[j] == x {
          BeforeAsym(s[0], x);
        } else {
          assert r[j] in s[1..];
        }
      }
    } else {
      forall j | 0 <= j < |s|
        ensures !Before(s[j], x)
      {
        if j > 0 {
          BeforeTrans(x, s[0], s[j]);
        }
      }
    }
  }

  lemma BeforeAsym(a: Mutation, b: Mutation)
    requires Before(a, b)
    ensures !Before(b, a)
  {
    if a.categoryName != b.categoryName && Le(b.categoryName, a.categoryName) {
      LeAntisym(a.categoryName, b.categoryName);
      assert false;
    }
  }

  lemma {:induction false} SortInOrder(s: seq<Mutation>)
    ensures InOrder(SortByOrder(s))
  {
    if s != [] {
      SortInOrder(s[1..]);
      InsertInOrder(s[0], SortByOrder(s[1..]));
    }
  }

  lemma {:induction false} InsertOther(x: Mutation, s: seq<Mutation>, source: string, name: string)
    requires !Of(x, source, name)
    ensures Section(InsertStable(x, s), source, name) == Section(s, source, name)
  {
    if s != [] && Before(s[0], x) {
      InsertOther(x, s[1..], source, name);
      assert InsertStable(x, s)[1..] == InsertStable(x, s[1..]);
    } else {
      assert ([x] + s)[1..] == s;
    }
  }

  lemma FrontNotBefore(x: Mutation, y: Mutation, rest: seq<Mutation>, source: string, name: string)
    requires Of(x, source, name) && Of(y, source, name) && Rising([x] + ([y] + rest))
    ensures !Before(y, x)
  {
    var all := [x] + ([y] + rest);
    assert all[0] == x && all[1] == y;
  }

  // An element goes in front of those of its own section, unless one of them has a smaller order.
  lemma {:induction false} InsertOwn(x: Mutation, s: seq<Mutation>, source: string, name: string)
    requires Of(x, source, name)
    requires Rising([x] + Section(s, source, name))
    ensures Section(InsertStable(x, s), source, name) == [x] + Section(s, source, name)
    decreases |s|
  {
    if s != [] && Before(s[0], x) {
      var rest := Section(s[1..], source, name);
      if Of(s[0], source, name) {
        FrontNotBefore(x, s[0], rest, source, name);
        assert false;
      }
      assert Section(s, source, name) == rest;
      InsertOwn(x, s[1..], source, name);
      assert InsertStable(x, s)[1..] == InsertStable(x, s[1..]);
    } else {
      assert ([x] + s)[1..] == s;
    }
  }

  lemma {:induction false} SectionKept(s: seq<Mutation>, source: string, name: string)
    requires Rising(Section(s, source, name))
    ensures Section(SortByOrder(s), source, name) == Section(s, source, name)
  {
    if s != [] {
      var rest := Section(s[1..], source, name);
      if Of(s[0], source, name) {
        assert Section(s, source, name) == [s[0]] + rest;
        RisingTail(s[0], rest);
        SectionKept(s[1..], source, name);
        InsertOwn(s[0], SortByOrder(s[1..]), source, name);
      } else {
        assert Section(s, source, name) == rest;
        SectionKept(s[1..], source, name);
        InsertOther(s[0], SortByOrder(s[1..]), source, name);
      }
    }
  }

  lemma RisingTail(x: Mutation, rest: seq<Mutation>)
    requires Rising([x] + rest)
    ensures Rising(rest)
  {
    assert forall i :: 0 <= i < |rest| ==> rest[i] == ([x] + rest)[i + 1];
  }

  lemma {:induction false} SectionMember(s: seq<Mutation>, source: string, name: string)
    ensures forall i :: 0 <= i < |Section(s, source, name)| ==>
              Section(s, source, name)[i] in s && Of(Section(s, source, name)[i], source, name)
  {
    if s != [] {
      SectionMember(s[1..], source, name);
      var own, rest := Pick(source, name)(s[0]), Section(s[1..], source, name);
      forall i | 0 <= i < |own + rest|
        ensures (own + rest)[i] in s && Of((own + rest)[i], source, name)
      {
        if i >= |own| {
          assert (own + rest)[i] == rest[i - |own|];
          assert rest[i - |own|] in s[1..];
        }
      }
    }
  }

  lemma {:induction false} SectionOfOrdered(s: seq<Mutation>, source: string, name: string)
    requires InOrder(s)
    ensures Rising(Section(s, source, name))
  {
    if s != [] {
      var rest := Section(s[1..], source, name);
      SectionOfOrdered(s[1..], source, name);
      SectionMember(s[1..], source, name);
      if Of(s[0], source, name) {
        forall i | 0 <= i < |rest|
          ensures s[0].sortOrder <= rest[i].sortOrder
        {
          var j :| 0 <= j < |s[1..]| && s[1..][j] == rest[i];
          assert !Before(s[j + 1], s[0]);
        }
        assert Section(s, source, name) == [s[0]] + rest;
      } else {
        assert Section(s, source, name) == rest;
      }
    }
  }

  // The sort is a permutation, in order; and the links of one file and one category name keep their
  // order in the document if and only if their sort orders do not fall along the document.
  lemma ImportOrder(s: seq<Mutation>, source: string, name: string)
    ensures multiset(SortByOrder(s)) == multiset(s) && InOrder(SortByOrder(s))
    ensures Section(SortByOrder(s), source, name) == Section(s, source, name) <==> Rising(Section(s, source, name))
  {
    SortPermutes(s);
    SortInOrder(s);
    SectionOfOrdered(SortByOrder(s), source, name);
    if Rising(Section(s, source, name)) {
      SectionKept(s, source, name);
    }
  }

  // What the order is: by category name, and by sort order under one name.
  lemma OrderIs(s: seq<Mutation>, i: nat, j: nat)
    requires i < j < |SortByOrder(s)|
    ensures var a, b := SortByOrder(s)[i], SortByOrder(s)[j];
            && Le(a.categoryName, b.categoryName)
            && (a.categoryName == b.categoryName ==> a.sortOrder <= b.sortOrder)
  {
    SortInOrder(s);
    LeTotal(SortByOrder(s)[i].categoryName, SortByOrder(s)[j].categoryName);
  }
}
