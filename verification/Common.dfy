/** Definitions shared by the models: options, flattening and the subsequence relation. */
module Common {

  datatype Option<+T> = None | Some(value: T)

  // How many messages a stream's callback channel holds.
  const CALLBACK_CAPACITY := 64

  // The elements of a sequence of chunks, in order.
  function Flatten<T>(chunks: seq<seq<T>>): seq<T> {
    if chunks == [] then [] else chunks[0] + Flatten(chunks[1..])
  }

  lemma {:induction false} FlattenConcat<T>(xs: seq<seq<T>>, ys: seq<seq<T>>)
    ensures Flatten(xs + ys) == Flatten(xs) + Flatten(ys)
  {
    if xs == [] {
      assert xs + ys == ys;
    } else {
      assert (xs + ys)[1..] == xs[1..] + ys;
      FlattenConcat(xs[1..], ys);
    }
  }

  lemma FlattenSnoc<T>(xs: seq<seq<T>>, y: seq<T>)
    ensures Flatten(xs + [y]) == Flatten(xs) + y
  {
    FlattenConcat(xs, [y]);
    assert Flatten([y]) == y + Flatten([]) == y;
  }

  // at picks, for every position of xs, a position of ys holding the same element, in strictly
  // increasing order: xs keeps the order of ys and uses no position twice.
  ghost predicate Embeds<T>(xs: seq<T>, ys: seq<T>, at: seq<nat>) {
    && |at| == |xs|
    && (forall i :: 0 <= i < |at| ==> at[i] < |ys|)
    && (forall i :: 0 <= i < |at| ==> xs[i] == ys[at[i]])
    && (forall i, j :: 0 <= i < j < |at| ==> at[i] < at[j])
  }

  // xs is an ordered subsequence of ys, each position of ys being used at most once.
  ghost predicate Subsequence<T>(xs: seq<T>, ys: seq<T>) {
    exists at :: Embeds(xs, ys, at)
  }

  lemma SubsequenceRefl<T>(xs: seq<T>)
    ensures Subsequence(xs, xs)
  {
    assert Embeds(xs, xs, seq(|xs|, (i: nat) => i));
  }

  lemma SubsequencePrefix<T>(xs: seq<T>, ys: seq<T>, n: nat)
    requires Subsequence(xs, ys) && n <= |xs|
    ensures Subsequence(xs[..n], ys)
  {
    var at :| Embeds(xs, ys, at);
    assert Embeds(xs[..n], ys, at[..n]);
  }

  // The longer sequence may grow.
  lemma SubsequenceGrow<T>(xs: seq<T>, ys: seq<T>, more: seq<T>)
    requires Subsequence(xs, ys)
    ensures Subsequence(xs, ys + more)
  {
    var at :| Embeds(xs, ys, at);
    assert Embeds(xs, ys + more, at);
  }

  // Both may be extended by the same tail.
  lemma SubsequenceAppend<T>(xs: seq<T>, ys: seq<T>, more: seq<T>)
    requires Subsequence(xs, ys)
    ensures Subsequence(xs + more, ys + more)
  {
    var at :| Embeds(xs, ys, at);
    assert Embeds(xs + more, ys + more, at + seq(|more|, (i: nat) => |ys| + i));
  }

  // Dropping whole chunks from a chunked sequence drops elements without reordering any.
  lemma {:induction false} SubsequenceFlatten<T>(xs: seq<seq<T>>, ys: seq<seq<T>>, at: seq<nat>)
    requires Embeds(xs, ys, at)
    ensures Subsequence(Flatten(xs), Flatten(ys))
    decreases |ys|
  {
    if ys == [] {
      assert xs == [];
      SubsequenceRefl(Flatten(xs));
    } else {
      var n, k := |ys| - 1, |at| - 1;
      assert ys == ys[..n] + [ys[n]];
      FlattenSnoc(ys[..n], ys[n]);
      if |at| > 0 && at[k] == n {
        EmbedsInit(xs, ys, at);
        SubsequenceFlatten(xs[..k], ys[..n], at[..k]);
        SubsequenceAppend(Flatten(xs[..k]), Flatten(ys[..n]), ys[n]);
        FlattenSnoc(xs[..k], ys[n]);
      } else {
        assert Embeds(xs, ys[..n], at);
        SubsequenceFlatten(xs, ys[..n], at);
        SubsequenceGrow(Flatten(xs), Flatten(ys[..n]), ys[n]);
      }
    }
  }

  lemma EmbedsInit<T>(xs: seq<T>, ys: seq<T>, at: seq<nat>)
    requires Embeds(xs, ys, at) && |at| > 0 && at[|at| - 1] == |ys| - 1
    ensures Embeds(xs[..|at| - 1], ys[..|ys| - 1], at[..|at| - 1])
    ensures xs == xs[..|at| - 1] + [ys[|ys| - 1]]
  {
    assert forall i :: 0 <= i < |at| - 1 ==> at[i] < at[|at| - 1];
  }

  // ---------------------------------------------------------------- visiting a collection

  // What a loop collects when each element contributes some items, in order.
  function FlatMap<T, U>(f: T -> seq<U>, s: seq<T>): seq<U> {
    if s == [] then [] else f(s[0]) + FlatMap(f, s[1..])
  }

  lemma {:induction false} FlatMapConcat<T, U>(f: T -> seq<U>, a: seq<T>, b: seq<T>)
    ensures FlatMap(f, a + b) == FlatMap(f, a) + FlatMap(f, b)
  {
    if a == [] {
      assert a + b == b;
    } else {
      assert (a + b)[1..] == a[1..] + b;
      FlatMapConcat(f, a[1..], b);
    }
  }

  lemma FlatMapSnoc<T, U>(f: T -> seq<U>, a: seq<T>, x: T)
    ensures FlatMap(f, a + [x]) == FlatMap(f, a) + f(x)
  {
    FlatMapConcat(f, a, [x]);
    assert [x][1..] == [];
    assert FlatMap(f, [x]) == f(x) + FlatMap(f, []) == f(x);
  }

  lemma FlatMapMove<T, U>(f: T -> seq<U>, s: seq<T>, i: nat)
    requires i < |s|
    ensures multiset(FlatMap(f, s)) == multiset(f(s[i])) + multiset(FlatMap(f, s[..i] + s[i + 1..]))
  {
    assert s == s[..i] + s[i..];
    FlatMapConcat(f, s[..i], s[i..]);
    FlatMapConcat(f, s[..i], s[i + 1..]);
    assert s[i..][1..] == s[i + 1..];
  }

  lemma RemoveAt<T>(s: seq<T>, i: nat)
    requires i < |s|
    ensures multiset(s[..i] + s[i + 1..]) == multiset(s) - multiset{s[i]}
  {
    assert s == s[..i] + [s[i]] + s[i + 1..];
  }

  lemma FirstIn<T>(a: seq<T>, b: seq<T>) returns (i: nat)
    requires a != [] && multiset(a) == multiset(b)
    ensures i < |b| && b[i] == a[0]
  {
    assert a[0] in multiset(b);
    i :| 0 <= i < |b| && b[i] == a[0];
  }

  // What is collected does not depend on the visiting order, as a multiset.
  lemma {:induction false} FlatMapPermuted<T, U>(f: T -> seq<U>, a: seq<T>, b: seq<T>)
    requires multiset(a) == multiset(b)
    ensures multiset(FlatMap(f, a)) == multiset(FlatMap(f, b))
    decreases |a|
  {
    SameLength(a, b);
    if a != [] {
      FlatMapPermutedStep(f, a, b);
    }
  }

  lemma SameLength<T>(a: seq<T>, b: seq<T>)
    requires multiset(a) == multiset(b)
    ensures |a| == |b|
  {
    assert |multiset(a)| == |a| && |multiset(b)| == |b|;
  }

  lemma {:induction false} FlatMapPermutedStep<T, U>(f: T -> seq<U>, a: seq<T>, b: seq<T>)
    requires a != [] && multiset(a) == multiset(b)
    ensures multiset(FlatMap(f, a)) == multiset(FlatMap(f, b))
    decreases |a|, 0
  {
    var i := FirstIn(a, b);
    var b' := b[..i] + b[i + 1..];
    assert multiset(a[1..]) == multiset(b') by {
      RemoveAt(a, 0);
      assert a[..0] + a[1..] == a[1..];
      RemoveAt(b, i);
    }
    assert multiset(FlatMap(f, a[1..])) == multiset(FlatMap(f, b')) by {
      FlatMapPermuted(f, a[1..], b');
    }
    assert multiset(FlatMap(f, b)) == multiset(f(a[0])) + multiset(FlatMap(f, b')) by {
      FlatMapMove(f, b, i);
    }
  }

  // ---------------------------------------------------------------- unused identities

  lemma FreshNumber(used: set<nat>) returns (k: nat)
    ensures k !in used && forall x :: x in used ==> x < k
    decreases |used|
  {
    if used == {} {
      k := 0;
    } else {
      var x :| x in used;
      var above := FreshNumber(used - {x});
      k := if x < above then above else x + 1;
      assert forall y :: y in used ==> y == x || y in used - {x};
    }
  }
}
