/**
 * The random source and the Fisher–Yates shuffle. `Math.random` is replaced
 * by an oracle: a stream of draws `rand(0), rand(1), ...`, each in [0, 1),
 * read from a position that every consumer threads through and advances by
 * the number of draws it makes. Every property below holds for every stream.
 */
module Shuffle {

  /** A stream of draws, each as `Math.random` returns them: in [0, 1). */
  ghost predicate IsRandomSource(rand: nat -> real) {
    forall k :: 0.0 <= rand(k) < 1.0
  }

  /** `Math.floor(Math.random() * bound)`: an index below `bound`. */
  function RandomIndex(x: real, bound: nat): (j: nat)
    requires 0.0 <= x < 1.0 && bound > 0
    ensures j < bound
  {
    var scaled := x * bound as real;
    assert 0.0 <= scaled < bound as real by {
      assert x * bound as real <= 1.0 * bound as real;
      assert x * bound as real != bound as real;
    }
    scaled.Floor
  }

  /** Draws made by a shuffle of `n` elements: one per index from n - 1 down to 1. */
  function ShuffleDraws(n: nat): nat {
    if n == 0 then 0 else n - 1
  }

  /**
   * shuffleArray: copy the input, then for i from the last index down to 1
   * swap element i with a random element at or below i. The input is a value
   * and is not changed; the result is a permutation of it.
   */
  method ShuffleArray<T>(a: seq<T>, rand: nat -> real, pos: nat) returns (r: seq<T>, next: nat)
    requires IsRandomSource(rand)
    ensures |r| == |a|
    ensures multiset(r) == multiset(a)
    ensures next == pos + ShuffleDraws(|a|)
  {
    var shuffled := new T[|a|](k requires 0 <= k < |a| => a[k]);
    assert shuffled[..] == a;
    var i := shuffled.Length - 1;
    next := pos;
    while i > 0
      invariant -1 <= i < shuffled.Length
      invariant shuffled.Length > 0 ==> 0 <= i && next == pos + (shuffled.Length - 1 - i)
      invariant shuffled.Length == 0 ==> next == pos
      invariant multiset(shuffled[..]) == multiset(a)
    {
      var j := RandomIndex(rand(next), i + 1);
      next := next + 1;
      ghost var before := shuffled[..];
      shuffled[i], shuffled[j] := shuffled[j], shuffled[i];
      assert shuffled[..] == before[i := before[j]][j := before[i]];
      SwapPermutes(before, i, j);
      i := i - 1;
    }
    r := shuffled[..];
  }

  /** Exchanging two elements of a sequence keeps its multiset. */
  lemma {:induction false} SwapPermutes<T>(s: seq<T>, i: nat, j: nat)
    requires i < |s| && j < |s|
    ensures multiset(s[i := s[j]][j := s[i]]) == multiset(s)
  {
    var t := s[i := s[j]];
    assert multiset(t) == multiset(s) - multiset{s[i]} + multiset{s[j]};
    assert multiset(t[j := s[i]]) == multiset(t) - multiset{t[j]} + multiset{s[i]};
  }
}
