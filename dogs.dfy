/**
 * The breed record, reduced to the two fields the preference store and the
 * selection engine look at: the unique `name` and the nullable `popularity`
 * rank (lower is more popular).
 */
module Dogs {
  import opened Wrappers

  datatype Dog = Dog(name: string, popularity: Option<int>)

  /** A breed is ranked when its popularity is not null. */
  predicate IsRanked(d: Dog) {
    d.popularity.Some?
  }

  /**
   * The sort key. A null popularity counts as 0, as it does in the
   * source's subtraction comparator; only ranked breeds are ever sorted.
   */
  function Rank(d: Dog): int {
    match d.popularity
    case Some(p) => p
    case None => 0
  }

  predicate AllRanked(s: seq<Dog>) {
    forall d :: d in s ==> IsRanked(d)
  }

  predicate NoneRanked(s: seq<Dog>) {
    forall d :: d in s ==> !IsRanked(d)
  }

  /** Number of ranked breeds in `s`. */
  function CountRanked(s: seq<Dog>): (n: nat)
    ensures n <= |s|
  {
    if s == [] then 0
    else CountRanked(s[..|s| - 1]) + (if IsRanked(s[|s| - 1]) then 1 else 0)
  }

  lemma {:induction false} CountRankedAll(s: seq<Dog>)
    ensures AllRanked(s) ==> CountRanked(s) == |s|
    ensures NoneRanked(s) ==> CountRanked(s) == 0
  {
    if s != [] {
      CountRankedAll(s[..|s| - 1]);
      assert forall d :: d in s[..|s| - 1] ==> d in s;
    }
  }

  lemma {:induction false} CountRankedAppend(a: seq<Dog>, b: seq<Dog>)
    ensures CountRanked(a + b) == CountRanked(a) + CountRanked(b)
    decreases |b|
  {
    if b == [] {
      assert a + b == a;
    } else {
      assert (a + b)[..|a + b| - 1] == a + b[..|b| - 1];
      CountRankedAppend(a, b[..|b| - 1]);
    }
  }

  /** The ranked count of a sequence is the sum of the counts of a prefix and the matching suffix. */
  lemma {:induction false} CountRankedSplit(s: seq<Dog>, k: nat)
    requires k <= |s|
    ensures CountRanked(s) == CountRanked(s[..k]) + CountRanked(s[k..])
  {
    assert s == s[..k] + s[k..];
    CountRankedAppend(s[..k], s[k..]);
  }
}
