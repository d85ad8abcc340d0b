/**
 * Python's `sorted(xs, key=..., reverse=...)` and `list.sort`, as a stable insertion sort
 * under a strict "sorts before" relation, and counting by a predicate.
 */
module Sorting {

  /** `before(a, b)`: `a` must come before `b`. The sort needs no more of its key order
      than this relation being a strict order. */
  ghost predicate StrictOrder<T(!new)>(before: (T, T) -> bool)
  {
    && (forall a :: !before(a, a))
    && (forall a, b, c :: before(a, b) && before(b, c) ==> before(a, c))
  }

  /** No element comes after one it must precede. */
  predicate SortedBy<T>(before: (T, T) -> bool, s: seq<T>)
  {
    forall i, j :: 0 <= i < j < |s| ==> !before(s[j], s[i])
  }

  /** `x` goes in front of the first element it must precede, so it comes after every
      element it ties with. */
  function Insert<T>(before: (T, T) -> bool, x: T, s: seq<T>): (r: seq<T>)
    ensures multiset(r) == multiset(s) + multiset{x}
    ensures |r| == |s| + 1
  {
    if s == [] then [x]
    else if before(x, s[0]) then [x] + s
    else
      assert s == [s[0]] + s[1..];
      [s[0]] + Insert(before, x, s[1..])
  }

  lemma {:induction false} InsertSorted<T(!new)>(before: (T, T) -> bool, x: T, s: seq<T>)
    requires StrictOrder(before) && SortedBy(before, s)
    ensures SortedBy(before, Insert(before, x, s))
  {
    if s == [] {
    } else if before(x, s[0]) {
      var r := [x] + s;
      forall i, j | 0 <= i < j < |r| ensures !before(r[j], r[i]) {
        if i == 0 {
          assert r[j] == s[j - 1];
          assert !before(s[j - 1], s[0]);
        } else {
          assert r[i] == s[i - 1] && r[j] == s[j - 1];
        }
      }
    } else {
      var t := Insert(before, x, s[1..]);
      assert SortedBy(before, s[1..]) by {
        forall i, j | 0 <= i < j < |s[1..]| ensures !before(s[1..][j], s[1..][i]) {
          assert s[1..][j] == s[j + 1] && s[1..][i] == s[i + 1];
        }
      }
      InsertSorted(before, x, s[1..]);
      assert forall y :: y in t ==> !before(y, s[0]) by {
        forall y | y in t ensures !before(y, s[0]) {
          assert y in multiset(t);
          if y != x {
            assert y in multiset(s[1..]);
            var k :| 0 <= k < |s[1..]| && s[1..][k] == y;
            assert s[k + 1] == y;
          }
        }
      }
      var r := [s[0]] + t;
      forall i, j | 0 <= i < j < |r| ensures !before(r[j], r[i]) {
        assert r[j] == t[j - 1] && r[j] in t;
        if i > 0 { assert r[i] == t[i - 1]; }
      }
    }
  }

  /** `sorted(xs, key=...)`: each element is inserted in turn into the sorted prefix. */
  function SortBy<T>(before: (T, T) -> bool, xs: seq<T>): (r: seq<T>)
    ensures multiset(r) == multiset(xs)
    ensures |r| == |xs|
  {
    if xs == [] then []
    else
      assert xs == xs[..|xs| - 1] + [xs[|xs| - 1]];
      Insert(before, xs[|xs| - 1], SortBy(before, xs[..|xs| - 1]))
  }

  /** Sorting under a transitive relation leaves no element after one it must precede. */
  lemma {:induction false} SortBySorted<T(!new)>(before: (T, T) -> bool, xs: seq<T>)
    requires StrictOrder(before)
    ensures SortedBy(before, SortBy(before, xs))
  {
    if xs != [] {
      SortBySorted(before, xs[..|xs| - 1]);
      InsertSorted(before, xs[|xs| - 1], SortBy(before, xs[..|xs| - 1]));
    }
  }

  /** Sorting keeps exactly the elements it was given. */
  lemma SortByMembers<T>(before: (T, T) -> bool, xs: seq<T>)
    ensures forall x :: x in SortBy(before, xs) <==> x in xs
  {
    var s := SortBy(before, xs);
    forall x ensures x in s <==> x in xs {
      assert x in s <==> x in multiset(s);
      assert x in xs <==> x in multiset(xs);
    }
  }

  /** An element that must precede none of `s` goes at its end. */
  lemma {:induction false} InsertAfterAll<T>(before: (T, T) -> bool, x: T, s: seq<T>)
    requires forall i :: 0 <= i < |s| ==> !before(x, s[i])
    ensures Insert(before, x, s) == s + [x]
  {
    if s != [] {
      InsertAfterAll(before, x, s[1..]);
      assert s == [s[0]] + s[1..];
    }
  }

  /** A prefix of a sorted list is sorted. */
  lemma SortedInit<T>(before: (T, T) -> bool, xs: seq<T>, n: nat)
    requires SortedBy(before, xs) && n <= |xs|
    ensures SortedBy(before, xs[..n])
  {
    var init := xs[..n];
    forall i, j | 0 <= i < j < |init| ensures !before(init[j], init[i]) {
      assert init[j] == xs[j] && init[i] == xs[i];
    }
  }

  /** The last element of a sorted list must precede none before it. */
  lemma SortedLast<T>(before: (T, T) -> bool, init: seq<T>, last: T)
    requires SortedBy(before, init + [last])
    ensures forall i :: 0 <= i < |init| ==> !before(last, init[i])
  {
    var xs := init + [last];
    forall i | 0 <= i < |init| ensures !before(last, init[i]) {
      assert xs[i] == init[i] && xs[|init|] == last;
    }
  }

  /** The sort is stable: a list already in order comes back unchanged. */
  lemma {:induction false} SortSorted<T>(before: (T, T) -> bool, xs: seq<T>)
    requires SortedBy(before, xs)
    ensures SortBy(before, xs) == xs
  {
    if xs != [] {
      var init, last := xs[..|xs| - 1], xs[|xs| - 1];
      SortedInit(before, xs, |xs| - 1);
      SortSorted(before, init);
      assert xs == init + [last];
      SortedLast(before, init, last);
      InsertAfterAll(before, last, init);
      assert xs == init + [last];
    }
  }

  /** Sorting twice is sorting once. */
  lemma SortByIdempotent<T(!new)>(before: (T, T) -> bool, xs: seq<T>)
    requires StrictOrder(before)
    ensures SortBy(before, SortBy(before, xs)) == SortBy(before, xs)
  {
    SortBySorted(before, xs);
    SortSorted(before, SortBy(before, xs));
  }

  /** The elements of `xs` that satisfy `p`, in order. */
  function Filter<T>(xs: seq<T>, p: T -> bool): (r: seq<T>)
    ensures |r| <= |xs|
  {
    if xs == [] then []
    else
      var rest := Filter(xs[..|xs| - 1], p);
      if p(xs[|xs| - 1]) then rest + [xs[|xs| - 1]] else rest
  }

  /** A filter every element passes keeps the list. */
  lemma {:induction false} FilterAll<T>(xs: seq<T>, p: T -> bool)
    requires forall x :: x in xs ==> p(x)
    ensures Filter(xs, p) == xs
  {
    if xs != [] {
      FilterAll(xs[..|xs| - 1], p);
      assert xs == xs[..|xs| - 1] + [xs[|xs| - 1]];
    }
  }

  /** A filter no element passes keeps nothing. */
  lemma {:induction false} FilterNone<T>(xs: seq<T>, p: T -> bool)
    requires forall x :: x in xs ==> !p(x)
    ensures Filter(xs, p) == []
  {
    if xs != [] {
      FilterNone(xs[..|xs| - 1], p);
    }
  }

  /** The filter keeps exactly the elements that satisfy `p`. */
  lemma {:induction false} FilterMembers<T(!new)>(xs: seq<T>, p: T -> bool)
    ensures forall x :: x in Filter(xs, p) <==> x in xs && p(x)
  {
    if xs != [] {
      FilterMembers(xs[..|xs| - 1], p);
      assert forall x :: x in xs <==> x in xs[..|xs| - 1] || x == xs[|xs| - 1] by {
        assert xs == xs[..|xs| - 1] + [xs[|xs| - 1]];
      }
    }
  }

  lemma {:induction false} FilterAppend<T>(a: seq<T>, b: seq<T>, p: T -> bool)
    ensures Filter(a + b, p) == Filter(a, p) + Filter(b, p)
    decreases |b|
  {
    if b == [] {
      assert a + b == a;
    } else {
      var b0 := b[..|b| - 1];
      assert (a + b)[..|a + b| - 1] == a + b0;
      assert (a + b)[|a + b| - 1] == b[|b| - 1];
      FilterAppend(a, b0, p);
    }
  }

  /** Taking out one element leaves the rest of a permutation a permutation. */
  lemma RemoveMatching<T>(a: seq<T>, b: seq<T>, j: nat)
    requires a != [] && multiset(a) == multiset(b) && j < |b| && b[j] == a[|a| - 1]
    ensures multiset(a[..|a| - 1]) == multiset(b[..j] + b[j + 1..])
  {
    var x, a0, b1, b2 := a[|a| - 1], a[..|a| - 1], b[..j], b[j + 1..];
    assert a == a0 + [x];
    assert b == b1 + [x] + b2;
    assert multiset(b) == multiset(b1 + b2) + multiset{x};
    assert multiset(a0) == multiset(a) - multiset{x} == multiset(b) - multiset{x} == multiset(b1 + b2);
  }

  lemma Around<T>(b: seq<T>, j: nat)
    requires j < |b|
    ensures b == (b[..j] + [b[j]]) + b[j + 1..]
  {
  }

  lemma FilterSingle<T>(x: T, p: T -> bool)
    ensures Filter([x], p) == if p(x) then [x] else []
  {
    assert [x][..0] == [];
  }

  /** Filtering a list with one element taken out. */
  lemma FilterAround<T>(b: seq<T>, j: nat, p: T -> bool)
    requires j < |b|
    ensures multiset(Filter(b, p)) == multiset(Filter(b[..j] + b[j + 1..], p)) + (if p(b[j]) then multiset{b[j]} else multiset{})
  {
    var b1, x, b2 := b[..j], b[j], b[j + 1..];
    var f1, m, f2 := Filter(b1, p), Filter([x], p), Filter(b2, p);
    assert Filter(b, p) == f1 + m + f2 by {
      Around(b, j);
      FilterAppend(b1 + [x], b2, p);
      FilterAppend(b1, [x], p);
    }
    assert Filter(b1 + b2, p) == f1 + f2 by {
      FilterAppend(b1, b2, p);
    }
    assert multiset(m) == if p(x) then multiset{x} else multiset{} by {
      FilterSingle(x, p);
    }
    assert multiset(f1 + m + f2) == multiset(f1) + multiset(m) + multiset(f2);
    assert multiset(f1 + f2) == multiset(f1) + multiset(f2);
  }

  /** Filtering commutes with permuting: a permutation keeps the multiset of the elements
      that satisfy `p`. */
  lemma {:induction false} FilterPermutation<T>(a: seq<T>, b: seq<T>, p: T -> bool)
    requires multiset(a) == multiset(b)
    ensures multiset(Filter(a, p)) == multiset(Filter(b, p))
    decreases |a|
  {
    if a != [] {
      var x := a[|a| - 1];
      assert x in multiset(b);
      var j :| 0 <= j < |b| && b[j] == x;
      RemoveMatching(a, b, j);
      FilterPermutation(a[..|a| - 1], b[..j] + b[j + 1..], p);
      FilterAround(b, j, p);
    }
  }
}
