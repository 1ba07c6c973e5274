/**
 * Sequence vocabulary shared by the preference store and the selection
 * engine: an order-preserving filter (the source's `Array.filter`), the
 * interleaving relation between a merged list and its two sources, and
 * duplicate-freedom.
 */
module Sequences {

  /** Keeps, in order, the elements of `s` that satisfy `keep`. */
  function Filter<T(!new)>(s: seq<T>, keep: T -> bool): (r: seq<T>)
    ensures |r| <= |s|
    ensures forall x :: x in r <==> x in s && keep(x)
    ensures forall x :: multiset(r)[x] == if keep(x) then multiset(s)[x] else 0
  {
    if s == [] then []
    else
      var init, last := s[..|s| - 1], s[|s| - 1];
      assert s == init + [last];
      Filter(init, keep) + (if keep(last) then [last] else [])
  }

  /**
   * `m` is an interleaving of `xs` and `ys`: every element of both appears in
   * `m` exactly once, and each source keeps its relative order. Stated from
   * the back, the way a merge loop pushes onto its output.
   */
  ghost predicate Interleaves<T>(m: seq<T>, xs: seq<T>, ys: seq<T>)
    decreases |m|
  {
    if m == [] then xs == [] && ys == []
    else
      (xs != [] && m[|m| - 1] == xs[|xs| - 1] && Interleaves(m[..|m| - 1], xs[..|xs| - 1], ys)) ||
      (ys != [] && m[|m| - 1] == ys[|ys| - 1] && Interleaves(m[..|m| - 1], xs, ys[..|ys| - 1]))
  }

  /** An interleaving is a permutation of its two sources put together. */
  lemma {:induction false} InterleavesPermutation<T>(m: seq<T>, xs: seq<T>, ys: seq<T>)
    requires Interleaves(m, xs, ys)
    ensures |m| == |xs| + |ys|
    ensures multiset(m) == multiset(xs) + multiset(ys)
    decreases |m|
  {
    if m != [] {
      var init, last := m[..|m| - 1], m[|m| - 1];
      assert m == init + [last];
      assert multiset(m) == multiset(init) + multiset{last};
      if xs != [] && last == xs[|xs| - 1] && Interleaves(init, xs[..|xs| - 1], ys) {
        var rest := xs[..|xs| - 1];
        InterleavesPermutation(init, rest, ys);
        assert xs == rest + [last];
        assert multiset(xs) == multiset(rest) + multiset{last};
      } else {
        var rest := ys[..|ys| - 1];
        assert Interleaves(init, xs, rest);
        InterleavesPermutation(init, xs, rest);
        assert ys == rest + [last];
        assert multiset(ys) == multiset(rest) + multiset{last};
      }
    }
  }

  /**
   * A filter and its complementary filter interleave back into the input:
   * the kept elements are exactly a subsequence of the input, in input order.
   */
  lemma {:induction false} FilterInterleaves<T(!new)>(s: seq<T>, keep: T -> bool, drop: T -> bool)
    requires forall x :: drop(x) == !keep(x)
    ensures Interleaves(s, Filter(s, keep), Filter(s, drop))
    decreases |s|
  {
    if s != [] {
      var init, last := s[..|s| - 1], s[|s| - 1];
      FilterInterleaves(init, keep, drop);
      var kept, dropped := Filter(s, keep), Filter(s, drop);
      if keep(last) {
        assert kept[..|kept| - 1] == Filter(init, keep);
        assert dropped == Filter(init, drop);
      } else {
        assert kept == Filter(init, keep);
        assert dropped[..|dropped| - 1] == Filter(init, drop);
      }
    }
  }

  /** Filtering one more element of a prefix appends it exactly when it is kept. */
  lemma {:induction false} FilterExtend<T(!new)>(s: seq<T>, i: nat, keep: T -> bool)
    requires i < |s|
    ensures keep(s[i]) ==> Filter(s[..i + 1], keep) == Filter(s[..i], keep) + [s[i]]
    ensures !keep(s[i]) ==> Filter(s[..i + 1], keep) == Filter(s[..i], keep)
  {
    assert s[..i + 1][..i] == s[..i];
  }

  /** Filtering twice with the same test is filtering once. */
  lemma {:induction false} FilterIdempotent<T(!new)>(s: seq<T>, keep: T -> bool)
    ensures Filter(Filter(s, keep), keep) == Filter(s, keep)
    decreases |s|
  {
    if s != [] {
      var init, last := s[..|s| - 1], s[|s| - 1];
      FilterIdempotent(init, keep);
      var f := Filter(s, keep);
      if keep(last) {
        assert f[..|f| - 1] == Filter(init, keep);
      } else {
        assert f == Filter(init, keep);
      }
    }
  }

  /** Filtering with a test every element passes changes nothing. */
  lemma {:induction false} FilterAllKept<T(!new)>(s: seq<T>, keep: T -> bool)
    requires forall i :: 0 <= i < |s| ==> keep(s[i])
    ensures Filter(s, keep) == s
    decreases |s|
  {
    if s != [] {
      var init, last := s[..|s| - 1], s[|s| - 1];
      FilterAllKept(init, keep);
      assert Filter(s, keep) == Filter(init, keep) + [last];
      assert s == init + [last];
    }
  }

  /** A prefix and the matching suffix split the multiset of their sequence. */
  lemma {:induction false} PartsSubMultiset<T>(s: seq<T>, k: nat)
    requires k <= |s|
    ensures multiset(s[..k]) + multiset(s[k..]) == multiset(s)
    ensures multiset(s[..k]) <= multiset(s)
  {
    assert s == s[..k] + s[k..];
  }

  /** No element occurs twice. */
  predicate NoDup<T(==)>(s: seq<T>) {
    forall x | x in s :: multiset(s)[x] == 1
  }

  predicate Disjoint<T(==)>(a: seq<T>, b: seq<T>) {
    forall x :: x in a ==> x !in b
  }
}
