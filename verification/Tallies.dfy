/** Filters over sequences and sums over sessions, with the facts that let a change at one
    place be followed into the total. */
module Tallies {

  // A sequence without its element at index k.
  ghost function Without<N>(s: seq<N>, k: nat): (r: seq<N>)
    requires k < |s|
    ensures |r| == |s| - 1
  {
    seq(|s| - 1, i requires 0 <= i < |s| - 1 => if i < k then s[i] else s[i + 1])
  }

  lemma WithoutMembers<N>(s: seq<N>, k: nat, n: N)
    requires k < |s| && forall i, j :: 0 <= i < j < |s| ==> s[i] != s[j]
    ensures n in Without(s, k) <==> n in s && n != s[k]
  {
    if n in s && n != s[k] {
      var i :| 0 <= i < |s| && s[i] == n;
      assert Without(s, k)[if i < k then i else i - 1] == n;
    }
  }

  // The concatenation of f over xs; with f giving [] or one element, a filter.
  function Collect<A, B>(xs: seq<A>, f: A -> seq<B>): seq<B> {
    if xs == [] then [] else Collect(xs[..|xs| - 1], f) + f(xs[|xs| - 1])
  }

  lemma CollectAppend<A, B>(xs: seq<A>, x: A, f: A -> seq<B>)
    ensures Collect(xs + [x], f) == Collect(xs, f) + f(x)
  {
    assert (xs + [x])[..|xs|] == xs;
  }

  lemma {:induction false} CollectConcat<A, B>(xs: seq<A>, ys: seq<A>, f: A -> seq<B>)
    ensures Collect(xs + ys, f) == Collect(xs, f) + Collect(ys, f)
  {
    if ys == [] {
      assert xs + ys == xs;
    } else {
      var n := |ys| - 1;
      CollectConcat(xs, ys[..n], f);
      assert xs + ys == (xs + ys[..n]) + [ys[n]];
      CollectAppend(xs + ys[..n], ys[n], f);
      Associate(Collect(xs, f), Collect(ys[..n], f), f(ys[n]));
    }
  }

  lemma Associate<T>(a: seq<T>, b: seq<T>, c: seq<T>)
    ensures a + b + c == a + (b + c)
  {
  }

  lemma CollectHead<A, B>(xs: seq<A>, f: A -> seq<B>)
    requires xs != []
    ensures Collect(xs, f) == f(xs[0]) + Collect(xs[1..], f)
  {
    assert xs == [xs[0]] + xs[1..];
    CollectConcat([xs[0]], xs[1..], f);
    CollectAppend([], xs[0], f);
    assert [] + [xs[0]] == [xs[0]];
  }

  lemma {:induction false} CollectSource<A, B>(xs: seq<A>, f: A -> seq<B>, y: B) returns (k: nat)
    requires y in Collect(xs, f)
    ensures k < |xs| && y in f(xs[k])
  {
    var n := |xs| - 1;
    if y in f(xs[n]) {
      k := n;
    } else {
      k := CollectSource(xs[..n], f, y);
    }
  }

  // The sum of f over xs.
  function Tally<A, B(==)>(xs: seq<A>, f: A -> multiset<B>): multiset<B> {
    if xs == [] then multiset{} else Tally(xs[..|xs| - 1], f) + f(xs[|xs| - 1])
  }

  lemma TallyAppend<A, B>(xs: seq<A>, x: A, f: A -> multiset<B>)
    ensures Tally(xs + [x], f) == Tally(xs, f) + f(x)
  {
    assert (xs + [x])[..|xs|] == xs;
  }

  lemma TallyAppendNone<A, B>(xs: seq<A>, x: A, f: A -> multiset<B>)
    requires f(x) == multiset{}
    ensures Tally(xs + [x], f) == Tally(xs, f)
  {
    TallyAppend(xs, x, f);
  }

  // Three ways one place of a sum may change.
  lemma {:induction false} TallyKeep<A, B>(xs: seq<A>, i: nat, x: A, f: A -> multiset<B>)
    requires i < |xs| && f(x) == f(xs[i])
    ensures Tally(xs[i := x], f) == Tally(xs, f)
  {
    TallySame(xs[i := x], xs, f);
  }

  lemma {:induction false} TallyGrow<A, B>(xs: seq<A>, i: nat, x: A, f: A -> multiset<B>, more: multiset<B>)
    requires i < |xs| && f(x) == f(xs[i]) + more
    ensures Tally(xs[i := x], f) == Tally(xs, f) + more
  {
    var n := |xs| - 1;
    if i == n {
      assert xs[i := x][..n] == xs[..n];
      Regroup(Tally(xs[..n], f), f(xs[i]), more);
    } else {
      assert xs[i := x][..n] == xs[..n][i := x] && xs[..n][i] == xs[i];
      TallyGrow(xs[..n], i, x, f, more);
      Exchange(Tally(xs[..n], f), more, f(xs[n]));
    }
  }

  lemma {:induction false} TallyShrink<A, B>(xs: seq<A>, i: nat, x: A, f: A -> multiset<B>, less: multiset<B>)
    requires i < |xs| && f(xs[i]) == f(x) + less
    ensures Tally(xs, f) == Tally(xs[i := x], f) + less
  {
    var ys := xs[i := x];
    assert ys[i := xs[i]] == xs;
    TallyGrow(ys, i, xs[i], f, less);
  }

  lemma Regroup<B>(a: multiset<B>, b: multiset<B>, c: multiset<B>)
    ensures a + (b + c) == (a + b) + c
  {
  }

  lemma Exchange<B>(a: multiset<B>, b: multiset<B>, c: multiset<B>)
    ensures (a + b) + c == (a + c) + b
  {
  }

  // One place holds no more than the whole.
  lemma {:induction false} TallyPart<A, B>(xs: seq<A>, i: nat, f: A -> multiset<B>)
    requires i < |xs|
    ensures f(xs[i]) <= Tally(xs, f)
  {
    if i < |xs| - 1 {
      TallyPart(xs[..|xs| - 1], i, f);
    }
  }

  lemma {:induction false} TallyTwoParts<A, B>(xs: seq<A>, i: nat, j: nat, f: A -> multiset<B>)
    requires i < j < |xs|
    ensures f(xs[i]) + f(xs[j]) <= Tally(xs, f)
  {
    var n := |xs| - 1;
    if j == n {
      TallyPart(xs[..n], i, f);
    } else {
      TallyTwoParts(xs[..n], i, j, f);
    }
  }

  // Two sums agree when f and g do, place by place.
  lemma {:induction false} TallySame<A, B>(xs: seq<A>, ys: seq<A>, f: A -> multiset<B>)
    requires |xs| == |ys| && forall k :: 0 <= k < |xs| ==> f(xs[k]) == f(ys[k])
    ensures Tally(xs, f) == Tally(ys, f)
  {
    if xs != [] {
      TallySame(xs[..|xs| - 1], ys[..|ys| - 1], f);
    }
  }

  // A sum grows by another when every place does.
  lemma {:induction false} TallySum<A, B>(xs: seq<A>, ys: seq<A>, f: A -> multiset<B>, g: A -> multiset<B>)
    requires |xs| == |ys| && forall k :: 0 <= k < |xs| ==> f(ys[k]) == f(xs[k]) + g(xs[k])
    ensures Tally(ys, f) == Tally(xs, f) + Tally(xs, g)
  {
    if xs != [] {
      var n := |xs| - 1;
      TallySum(xs[..n], ys[..n], f, g);
      FourSums(Tally(xs[..n], f), Tally(xs[..n], g), f(xs[n]), g(xs[n]));
    }
  }

  lemma FourSums<B>(a: multiset<B>, b: multiset<B>, c: multiset<B>, d: multiset<B>)
    ensures (a + b) + (c + d) == (a + c) + (b + d)
  {
  }
}
