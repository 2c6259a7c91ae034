/** Sorting by a key, for the programs here that call their language's sort. */
module Sorting {
  import opened Prelude

  ghost predicate Total<T(!new)>(le: (T, T) -> bool) {
    && (forall x, y :: le(x, y) || le(y, x))
    && (forall x, y, z :: le(x, y) && le(y, z) ==> le(x, z))
  }

  ghost predicate Ordered<T>(xs: seq<T>, le: (T, T) -> bool) {
    forall i, j | 0 <= i < j < |xs| :: le(xs[i], xs[j])
  }

  /** Where to insert: after everything that may stand before `x`. */
  method Place<T(!new)>(xs: seq<T>, x: T, le: (T, T) -> bool) returns (k: nat)
    requires Total(le)
    ensures k <= |xs| && (k > 0 ==> le(xs[k - 1], x)) && forall i | k <= i < |xs| :: le(x, xs[i])
  {
    k := |xs|;
    while k > 0 && !le(xs[k - 1], x)
      invariant 0 <= k <= |xs| && forall i | k <= i < |xs| :: le(x, xs[i])
    {
      k := k - 1;
    }
  }

  method Sort<T(!new)>(xs: seq<T>, le: (T, T) -> bool) returns (r: seq<T>)
    requires Total(le)
    ensures Ordered(r, le) && multiset(r) == multiset(xs)
  {
    r := [];
    for i := 0 to |xs|
      invariant Ordered(r, le) && multiset(r) == multiset(xs[..i])
    {
      assert xs[..i + 1] == xs[..i] + [xs[i]];
      var k := Place(r, xs[i], le);
      Spliced(r, k, xs[i], le);
      r := r[..k] + [xs[i]] + r[k..];
    }
    assert xs[..|xs|] == xs;
  }

  lemma Spliced<T(!new)>(xs: seq<T>, k: nat, x: T, le: (T, T) -> bool)
    requires Total(le) && k <= |xs| && Ordered(xs, le) && (k > 0 ==> le(xs[k - 1], x)) && forall i | k <= i < |xs| ::
               le(x, xs[i])
    ensures Ordered(xs[..k] + [x] + xs[k..], le) && multiset(xs[..k] + [x] + xs[k..]) == multiset(xs) + multiset{x}
  {
    assert xs == xs[..k] + xs[k..];
    forall i | 0 <= i < k ensures le(xs[i], x) { Follows(le, xs[i], xs[k - 1], x); }
    OrderedAround(xs[..k], x, xs[k..], le);
  }

  lemma Follows<T(!new)>(le: (T, T) -> bool, x: T, y: T, z: T)
    requires Total(le) && (le(x, y) || x == y) && le(y, z)
    ensures le(x, z)
  {
  }

  lemma OrderedAround<T>(a: seq<T>, x: T, b: seq<T>, le: (T, T) -> bool)
    requires Ordered(a + b, le)
    requires forall i | 0 <= i < |a| :: le(a[i], x)
    requires forall i | 0 <= i < |b| :: le(x, b[i])
    ensures Ordered(a + [x] + b, le)
  {
    var xs, r := a + b, a + [x] + b;
    forall i, j | 0 <= i < j < |r| ensures le(r[i], r[j]) {
      if i != |a| && j != |a| {
        assert r[i] == xs[if i < |a| then i else i - 1] && r[j] == xs[if j < |a| then j else j - 1];
      }
    }
  }

  // ----- Sequences without repeats

  lemma {:induction false} CountOfDistinct<T>(xs: seq<T>, x: T)
    requires Distinct(xs)
    ensures multiset(xs)[x] <= 1
  {
    if xs != [] {
      var front, last := xs[..|xs| - 1], xs[|xs| - 1];
      assert xs == front + [last];
      CountOfDistinct(front, x);
      assert last !in front;
    }
  }

  /** A part of a sequence without repeats, in any order, has none. */
  lemma PartOfDistinct<T(!new)>(xs: seq<T>, ys: seq<T>)
    requires Distinct(ys) && multiset(xs) <= multiset(ys)
    ensures Distinct(xs)
  {
    forall i, j | 0 <= i < j < |xs| ensures xs[i] != xs[j] {
      CountOfDistinct(ys, xs[j]);
      assert xs == xs[..j] + [xs[j]] + xs[j + 1..];
      assert xs[i] in xs[..j];
      assert multiset(xs)[xs[j]] == multiset(xs[..j])[xs[j]] + 1 + multiset(xs[j + 1..])[xs[j]];
    }
  }
}
