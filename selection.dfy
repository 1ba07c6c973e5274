/**
 * The selection engine: the unseen filter and the popularity-tiered
 * randomized ordering of the unseen breeds. Random draws come from an
 * oracle stream (see module Shuffle), so every property is stated for all
 * possible random outcomes.
 */
module Selection {
  import opened Dogs
  import opened Sequences
  import opened Shuffle

  function Min(a: int, b: int): int {
    if a <= b then a else b
  }

  /** The catalog entries whose name is in neither preference list, in catalog order. */
  function Unseen(all: seq<Dog>, liked: seq<string>, disliked: seq<string>): (r: seq<Dog>)
    ensures forall d :: d in r <==> d in all && d.name !in liked && d.name !in disliked
    ensures forall d ::
      multiset(r)[d] == if d.name in liked || d.name in disliked then 0 else multiset(all)[d]
  {
    Filter(all, (d: Dog) => d.name !in liked && d.name !in disliked)
  }

  /** The catalog entries already decided, in catalog order. */
  function Seen(all: seq<Dog>, liked: seq<string>, disliked: seq<string>): seq<Dog> {
    Filter(all, (d: Dog) => !(d.name !in liked && d.name !in disliked))
  }

  /**
   * The unseen breeds are exactly a subsequence of the catalog: the catalog is
   * an interleaving of the unseen and the decided breeds, each in catalog order.
   */
  lemma UnseenKeepsCatalogOrder(all: seq<Dog>, liked: seq<string>, disliked: seq<string>)
    ensures Interleaves(all, Unseen(all, liked, disliked), Seen(all, liked, disliked))
  {
    FilterInterleaves(all, (d: Dog) => d.name !in liked && d.name !in disliked,
                           (d: Dog) => !(d.name !in liked && d.name !in disliked));
  }

  /** The ranked count of an interleaving is the sum of its sources' ranked counts. */
  lemma {:induction false} InterleavesCountRanked(m: seq<Dog>, xs: seq<Dog>, ys: seq<Dog>)
    requires Interleaves(m, xs, ys)
    ensures CountRanked(m) == CountRanked(xs) + CountRanked(ys)
    decreases |m|
  {
    if m != [] {
      var init := m[..|m| - 1];
      if xs != [] && m[|m| - 1] == xs[|xs| - 1] && Interleaves(init, xs[..|xs| - 1], ys) {
        InterleavesCountRanked(init, xs[..|xs| - 1], ys);
      } else {
        InterleavesCountRanked(init, xs, ys[..|ys| - 1]);
      }
    }
  }

  predicate IsUnranked(d: Dog) {
    !IsRanked(d)
  }

  /** The ranked breeds of `s`, in order. */
  function RankedOf(s: seq<Dog>): seq<Dog> {
    Filter(s, IsRanked)
  }

  /** The unranked breeds of `s`, in order. */
  function UnrankedOf(s: seq<Dog>): seq<Dog> {
    Filter(s, IsUnranked)
  }

  /**
   * The `forEach` that pushes each unseen breed onto the ranked or the
   * unranked list: the two lists are the input's ranked and unranked breeds,
   * each in input order, and together they hold every input breed once.
   */
  method SplitByPopularity(unseen: seq<Dog>) returns (withPop: seq<Dog>, withoutPop: seq<Dog>)
    ensures withPop == RankedOf(unseen) && withoutPop == UnrankedOf(unseen)
    ensures AllRanked(withPop) && NoneRanked(withoutPop)
    ensures Interleaves(unseen, withPop, withoutPop)
    ensures multiset(unseen) == multiset(withPop) + multiset(withoutPop)
    ensures |unseen| == |withPop| + |withoutPop|
    ensures CountRanked(unseen) == |withPop|
  {
    withPop, withoutPop := [], [];
    var i := 0;
    while i < |unseen|
      invariant 0 <= i <= |unseen|
      invariant withPop == RankedOf(unseen[..i])
      invariant withoutPop == UnrankedOf(unseen[..i])
    {
      var dog := unseen[i];
      SplitExtend(unseen, i);
      if IsRanked(dog) {
        withPop := withPop + [dog];
      } else {
        withoutPop := withoutPop + [dog];
      }
      i := i + 1;
    }
    assert unseen[..|unseen|] == unseen;
    RankedSplit(unseen);
  }

  /** One more breed of the input goes onto exactly one of the two lists. */
  lemma {:induction false} SplitExtend(s: seq<Dog>, i: nat)
    requires i < |s|
    ensures IsRanked(s[i]) ==>
      RankedOf(s[..i + 1]) == RankedOf(s[..i]) + [s[i]] && UnrankedOf(s[..i + 1]) == UnrankedOf(s[..i])
    ensures !IsRanked(s[i]) ==>
      RankedOf(s[..i + 1]) == RankedOf(s[..i]) && UnrankedOf(s[..i + 1]) == UnrankedOf(s[..i]) + [s[i]]
  {
    FilterExtend(s, i, IsRanked);
    FilterExtend(s, i, IsUnranked);
  }

  /**
   * The ranked and unranked breeds of a list are ranked and unranked
   * respectively, interleave back into the list, and together hold every
   * breed of it once; the ranked ones are as many as the list's ranked count.
   */
  lemma {:induction false} RankedSplit(unseen: seq<Dog>)
    ensures AllRanked(RankedOf(unseen)) && NoneRanked(UnrankedOf(unseen))
    ensures Interleaves(unseen, RankedOf(unseen), UnrankedOf(unseen))
    ensures multiset(unseen) == multiset(RankedOf(unseen)) + multiset(UnrankedOf(unseen))
    ensures |unseen| == |RankedOf(unseen)| + |UnrankedOf(unseen)|
    ensures CountRanked(unseen) == |RankedOf(unseen)|
  {
    FilterInterleaves(unseen, IsRanked, IsUnranked);
    InterleavesPermutation(unseen, RankedOf(unseen), UnrankedOf(unseen));
    InterleaveRankedCount(unseen, RankedOf(unseen), UnrankedOf(unseen));
  }

  predicate SortedByRank(s: seq<Dog>) {
    forall i, j :: 0 <= i < j < |s| ==> Rank(s[i]) <= Rank(s[j])
  }

  /** Inserts `d` before the first element of higher or equal rank. */
  function InsertByRank(d: Dog, s: seq<Dog>): (r: seq<Dog>)
    ensures |r| == |s| + 1
    ensures multiset(r) == multiset(s) + multiset{d}
    decreases |s|
  {
    if s == [] || Rank(d) <= Rank(s[0]) then [d] + s
    else
      assert s == [s[0]] + s[1..];
      [s[0]] + InsertByRank(d, s[1..])
  }

  /**
   * The ascending sort of the ranked breeds by popularity (the source's
   * comparator `a.popularity - b.popularity`), as an insertion sort; it is a
   * permutation of its input, and SortByPopularitySorted proves it sorted.
   */
  function SortByPopularity(s: seq<Dog>): (r: seq<Dog>)
    ensures |r| == |s|
    ensures multiset(r) == multiset(s)
    decreases |s|
  {
    if s == [] then []
    else
      assert s == [s[0]] + s[1..];
      InsertByRank(s[0], SortByPopularity(s[1..]))
  }

  lemma {:induction false} InsertByRankSorted(d: Dog, s: seq<Dog>)
    requires SortedByRank(s)
    ensures SortedByRank(InsertByRank(d, s))
    decreases |s|
  {
    if s != [] && Rank(d) > Rank(s[0]) {
      var rest := InsertByRank(d, s[1..]);
      InsertByRankSorted(d, s[1..]);
      forall x | x in rest ensures Rank(s[0]) <= Rank(x) {
        assert x in multiset(rest);
        assert x == d || x in s[1..];
      }
      PrependSorted(s[0], rest);
    }
  }

  /** A breed no more popular-ranked than any in a sorted list can lead it. */
  lemma {:induction false} PrependSorted(x: Dog, s: seq<Dog>)
    requires SortedByRank(s)
    requires forall y | y in s :: Rank(x) <= Rank(y)
    ensures SortedByRank([x] + s)
  {
    var r := [x] + s;
    forall i, j | 0 <= i < j < |r| ensures Rank(r[i]) <= Rank(r[j]) {
      if i == 0 {
        assert r[j] == s[j - 1];
      } else {
        assert r[i] == s[i - 1] && r[j] == s[j - 1];
      }
    }
  }

  /** The sort's output is in ascending popularity order. */
  lemma {:induction false} SortByPopularitySorted(s: seq<Dog>)
    ensures SortedByRank(SortByPopularity(s))
    decreases |s|
  {
    if s != [] {
      SortByPopularitySorted(s[1..]);
      InsertByRankSorted(s[0], SortByPopularity(s[1..]));
    }
  }

  /**
   * `Array.slice(start, end)` for non-negative arguments: both ends are
   * clamped to the length, and an empty range gives the empty list.
   */
  function Slice<T>(s: seq<T>, start: nat, end: nat): seq<T> {
    var lo, hi := Min(start, |s|), Min(end, |s|);
    if hi <= lo then [] else s[lo..hi]
  }

  /** `Math.ceil(n / 3)`. */
  function ThirdSize(n: nat): (t: nat)
    ensures n <= 3 * t < n + 3
    ensures t <= n
  {
    (n + 2) / 3
  }

  datatype Tiers = Tiers(most: seq<Dog>, middle: seq<Dog>, least: seq<Dog>)

  /**
   * The three popularity tiers of the sorted ranked breeds: the first
   * ceil(n/3), the next ceil(n/3) (or what is left), and the rest. They
   * concatenate back to the sorted list, and no tier is larger than the one
   * before it.
   */
  function SplitTiers(sorted: seq<Dog>): (t: Tiers)
    ensures t.most + t.middle + t.least == sorted
    ensures |t.most| == ThirdSize(|sorted|)
    ensures |t.middle| == Min(ThirdSize(|sorted|), |sorted| - ThirdSize(|sorted|))
    ensures |t.least| <= |t.middle| <= |t.most|
  {
    var third := ThirdSize(|sorted|);
    Tiers(Slice(sorted, 0, third), Slice(sorted, third, third * 2), Slice(sorted, third * 2, |sorted|))
  }

  datatype Quota = Quota(most: nat, middle: nat, least: nat) {
    function Sum(): nat {
      most + middle + least
    }
  }

  /**
   * `Math.floor(Math.floor(total / 2) * 0.5)`: the ranked slots wanted in the
   * first half of the session, a quarter of the unseen total rounded down.
   */
  function FirstHalfPopNeeded(total: nat): (need: nat)
    ensures 4 * need <= total < 4 * need + 4
  {
    (total / 2) / 2
  }

  /**
   * The 60/25/15 split of `need` over the three tiers: the first two
   * rounded down, the third takes what is left, so nothing is lost.
   */
  function Requested(need: nat): (q: Quota)
    ensures q.Sum() == need
    ensures 10 * q.most <= 6 * need < 10 * q.most + 10
    ensures 4 * q.middle <= need < 4 * q.middle + 4
  {
    var most := (6 * need) / 10;
    var middle := need / 4;
    Quota(most, middle, need - most - middle)
  }

  /**
   * Each tier's request clamped to the tier's size: no quota exceeds its
   * request or its tier, a quota falls short of its request only when its
   * tier is exhausted, and the quotas add up to at most the ranked slots
   * wanted (exactly that many when every tier can meet its request).
   */
  function Allocate(total: nat, mostLen: nat, middleLen: nat, leastLen: nat): (q: Quota)
    ensures var req := Requested(FirstHalfPopNeeded(total));
      && q.most <= req.most && q.most <= mostLen && (q.most < req.most ==> q.most == mostLen)
      && q.middle <= req.middle && q.middle <= middleLen && (q.middle < req.middle ==> q.middle == middleLen)
      && q.least <= req.least && q.least <= leastLen && (q.least < req.least ==> q.least == leastLen)
      && (req.most <= mostLen && req.middle <= middleLen && req.least <= leastLen ==>
            q.Sum() == FirstHalfPopNeeded(total))
    ensures q.Sum() <= FirstHalfPopNeeded(total)
  {
    var req := Requested(FirstHalfPopNeeded(total));
    Quota(Min(req.most, mostLen), Min(req.middle, middleLen), Min(req.least, leastLen))
  }

  datatype Pools = Pools(first: seq<Dog>, second: seq<Dog>)

  /**
   * The first-half pool is the allocated prefix of each shuffled tier, most
   * popular first; the second-half pool is the remaining suffix of each tier
   * in the same order (a quota beyond a tier's size takes the whole tier).
   * Together they hold every tiered breed exactly once.
   */
  function SplitPools(most: seq<Dog>, middle: seq<Dog>, least: seq<Dog>, q: Quota): (p: Pools)
    ensures var m1, m2, m3 := Min(q.most, |most|), Min(q.middle, |middle|), Min(q.least, |least|);
      && p.first == most[..m1] + middle[..m2] + least[..m3]
      && p.second == most[m1..] + middle[m2..] + least[m3..]
    ensures multiset(p.first) + multiset(p.second) == multiset(most + middle + least)
    ensures |p.first| + |p.second| == |most| + |middle| + |least|
    ensures |p.first| == Min(q.most, |most|) + Min(q.middle, |middle|) + Min(q.least, |least|)
  {
    var m1, m2, m3 := Min(q.most, |most|), Min(q.middle, |middle|), Min(q.least, |least|);
    var first := Slice(most, 0, q.most) + Slice(middle, 0, q.middle) + Slice(least, 0, q.least);
    var second := Slice(most, q.most, |most|) + Slice(middle, q.middle, |middle|) + Slice(least, q.least, |least|);
    assert Slice(most, 0, q.most) == most[..m1] && Slice(most, q.most, |most|) == most[m1..];
    assert Slice(middle, 0, q.middle) == middle[..m2] && Slice(middle, q.middle, |middle|) == middle[m2..];
    assert Slice(least, 0, q.least) == least[..m3] && Slice(least, q.least, |least|) == least[m3..];
    PartsSubMultiset(most, m1);
    PartsSubMultiset(middle, m2);
    PartsSubMultiset(least, m3);
    Pools(first, second)
  }

  /**
   * One of the two merge loops: each round draws a coin; on heads it takes
   * the next pooled breed if one is left, otherwise the next unranked breed
   * if one is left, otherwise the next pooled breed. Whatever the coins, the
   * output is an interleaving of the two sources that keeps each source's
   * order, and one draw is made per element.
   */
  method MergeHalf<T>(pool: seq<T>, noPop: seq<T>, rand: nat -> real, pos: nat)
    returns (merged: seq<T>, next: nat)
    requires IsRandomSource(rand)
    ensures Interleaves(merged, pool, noPop)
    ensures next == pos + |pool| + |noPop|
  {
    merged := [];
    next := pos;
    var popIdx, noPopIdx := 0, 0;
    while popIdx < |pool| || noPopIdx < |noPop|
      invariant 0 <= popIdx <= |pool| && 0 <= noPopIdx <= |noPop|
      invariant Interleaves(merged, pool[..popIdx], noPop[..noPopIdx])
      invariant next == pos + popIdx + noPopIdx
      decreases |pool| - popIdx + |noPop| - noPopIdx
    {
      var addPop := rand(next) > 0.5;
      next := next + 1;
      if addPop && popIdx < |pool| {
        assert pool[..popIdx + 1][..popIdx] == pool[..popIdx];
        merged := merged + [pool[popIdx]];
        popIdx := popIdx + 1;
      } else if noPopIdx < |noPop| {
        assert noPop[..noPopIdx + 1][..noPopIdx] == noPop[..noPopIdx];
        merged := merged + [noPop[noPopIdx]];
        noPopIdx := noPopIdx + 1;
      } else if popIdx < |pool| {
        assert pool[..popIdx + 1][..popIdx] == pool[..popIdx];
        merged := merged + [pool[popIdx]];
        popIdx := popIdx + 1;
      }
    }
    assert pool[..popIdx] == pool && noPop[..noPopIdx] == noPop;
  }

  /**
   * The tier quotas the algorithm computes for `total` unseen breeds of which
   * `ranked` have a popularity: they depend on nothing else.
   */
  function PlannedQuota(total: nat, ranked: nat): Quota {
    var t := ThirdSize(ranked);
    var middle := Min(t, ranked - t);
    Allocate(total, t, middle, ranked - t - middle)
  }

  /**
   * When the least popular tier is smaller than its request, that request is
   * clamped and the shortfall is not moved to another tier: the first half
   * gets fewer ranked slots than the quarter it asked for.
   */
  lemma ShortfallNotRedistributed(total: nat, ranked: nat)
    requires var t := ThirdSize(ranked);
      Requested(FirstHalfPopNeeded(total)).least > ranked - t - Min(t, ranked - t)
    ensures PlannedQuota(total, ranked).Sum() < FirstHalfPopNeeded(total)
  {
  }

  /** Length of the first merged half: the first pool plus half the unranked breeds. */
  function FirstHalfLength(unseen: seq<Dog>): nat {
    PlannedQuota(|unseen|, CountRanked(unseen)).Sum() + (|unseen| - CountRanked(unseen)) / 2
  }

  /**
   * `fromMost`, `fromMiddle` and `fromLeast` are drawn from the three tiers,
   * exactly the quota from each.
   */
  ghost predicate TierQuotas(tiers: Tiers, q: Quota, fromMost: seq<Dog>, fromMiddle: seq<Dog>, fromLeast: seq<Dog>) {
    && |fromMost| == q.most && multiset(fromMost) <= multiset(tiers.most)
    && |fromMiddle| == q.middle && multiset(fromMiddle) <= multiset(tiers.middle)
    && |fromLeast| == q.least && multiset(fromLeast) <= multiset(tiers.least)
  }

  /**
   * The first-half pool's make-up for `total` unseen breeds whose ranked ones
   * are `sorted`: exactly the planned quota from the most popular tier, from
   * the middle tier and from the least popular tier, and nothing else.
   */
  ghost predicate PoolMadeOf(sorted: seq<Dog>, total: nat, firstPool: seq<Dog>,
                             fromMost: seq<Dog>, fromMiddle: seq<Dog>, fromLeast: seq<Dog>)
  {
    && TierQuotas(SplitTiers(sorted), PlannedQuota(total, |sorted|), fromMost, fromMiddle, fromLeast)
    && multiset(firstPool) == multiset(fromMost) + multiset(fromMiddle) + multiset(fromLeast)
  }

  /** Rankedness of every element carries over to a sub-multiset. */
  lemma {:induction false} RankedBySubMultiset(a: seq<Dog>, b: seq<Dog>)
    requires multiset(a) <= multiset(b)
    ensures AllRanked(b) ==> AllRanked(a)
    ensures NoneRanked(b) ==> NoneRanked(a)
  {
    forall d | d in a ensures d in b {
      assert d in multiset(a);
    }
  }

  /**
   * Pools split from shuffled tiers and then shuffled themselves hold,
   * between them, the sorted ranked breeds exactly once.
   */
  lemma {:induction false} PoolsCoverTiers(sorted: seq<Dog>, most: seq<Dog>, middle: seq<Dog>, least: seq<Dog>,
                                           q: Quota, firstPool: seq<Dog>, secondPool: seq<Dog>)
    requires multiset(most) == multiset(SplitTiers(sorted).most)
    requires multiset(middle) == multiset(SplitTiers(sorted).middle)
    requires multiset(least) == multiset(SplitTiers(sorted).least)
    requires multiset(firstPool) == multiset(SplitPools(most, middle, least, q).first)
    requires multiset(secondPool) == multiset(SplitPools(most, middle, least, q).second)
    ensures multiset(firstPool) + multiset(secondPool) == multiset(sorted)
    ensures |firstPool| + |secondPool| == |sorted|
    ensures AllRanked(sorted) ==> AllRanked(firstPool) && AllRanked(secondPool)
  {
    var tiers := SplitTiers(sorted);
    assert multiset(most + middle + least) == multiset(sorted) by {
      assert multiset(tiers.most + tiers.middle + tiers.least) == multiset(sorted);
    }
    RankedBySubMultiset(firstPool, sorted);
    RankedBySubMultiset(secondPool, sorted);
  }

  /**
   * The first pool, split from shuffled tiers by the planned quota and then
   * shuffled, is made of the quota's prefix of each shuffled tier.
   */
  lemma {:induction false} PoolsMadeOf(sorted: seq<Dog>, total: nat, most: seq<Dog>, middle: seq<Dog>, least: seq<Dog>,
                                       q: Quota, firstPool: seq<Dog>)
    requires multiset(most) == multiset(SplitTiers(sorted).most)
    requires multiset(middle) == multiset(SplitTiers(sorted).middle)
    requires multiset(least) == multiset(SplitTiers(sorted).least)
    requires q == PlannedQuota(total, |sorted|)
    requires q.most <= |most| && q.middle <= |middle| && q.least <= |least|
    requires |firstPool| == |SplitPools(most, middle, least, q).first|
    requires multiset(firstPool) == multiset(SplitPools(most, middle, least, q).first)
    ensures |firstPool| == PlannedQuota(total, |sorted|).Sum()
    ensures PoolMadeOf(sorted, total, firstPool, most[..q.most], middle[..q.middle], least[..q.least])
  {
    FirstPoolIsPrefixes(most, middle, least, q);
    QuotaPrefix(SplitTiers(sorted).most, most, q.most);
    QuotaPrefix(SplitTiers(sorted).middle, middle, q.middle);
    QuotaPrefix(SplitTiers(sorted).least, least, q.least);
  }

  /** When no quota exceeds its tier, the first pool is exactly the quota's prefix of each tier. */
  lemma {:induction false} FirstPoolIsPrefixes(most: seq<Dog>, middle: seq<Dog>, least: seq<Dog>, q: Quota)
    requires q.most <= |most| && q.middle <= |middle| && q.least <= |least|
    ensures SplitPools(most, middle, least, q).first == most[..q.most] + middle[..q.middle] + least[..q.least]
    ensures |SplitPools(most, middle, least, q).first| == q.Sum()
  {
  }

  /** A prefix of a shuffled tier is drawn from that tier. */
  lemma {:induction false} QuotaPrefix(tier: seq<Dog>, shuffled: seq<Dog>, n: nat)
    requires multiset(shuffled) == multiset(tier) && n <= |shuffled|
    ensures |shuffled[..n]| == n && multiset(shuffled[..n]) <= multiset(tier)
  {
    PartsSubMultiset(shuffled, n);
  }

  /**
   * Tiering and pooling of the sorted ranked breeds: split into tiers, clamp
   * the quotas, shuffle each tier, cut the first- and second-half pools and
   * shuffle each pool. The pools hold every ranked breed exactly once. The
   * ghost outputs name the first pool's make-up: exactly the planned quota of
   * breeds from the most popular tier, from the middle tier and from the
   * least popular tier.
   */
  method BuildPools(sorted: seq<Dog>, total: nat, rand: nat -> real, pos: nat)
    returns (firstPool: seq<Dog>, secondPool: seq<Dog>, next: nat,
             ghost fromMost: seq<Dog>, ghost fromMiddle: seq<Dog>, ghost fromLeast: seq<Dog>)
    requires IsRandomSource(rand)
    ensures multiset(firstPool) + multiset(secondPool) == multiset(sorted)
    ensures |firstPool| + |secondPool| == |sorted|
    ensures |firstPool| == PlannedQuota(total, |sorted|).Sum()
    ensures PoolMadeOf(sorted, total, firstPool, fromMost, fromMiddle, fromLeast)
    ensures AllRanked(sorted) ==> AllRanked(firstPool) && AllRanked(secondPool)
    ensures next >= pos
  {
    var tiers := SplitTiers(sorted);
    var q := Allocate(total, |tiers.most|, |tiers.middle|, |tiers.least|);
    assert q == PlannedQuota(total, |sorted|);

    var most, middle, least;
    most, next := ShuffleArray(tiers.most, rand, pos);
    middle, next := ShuffleArray(tiers.middle, rand, next);
    least, next := ShuffleArray(tiers.least, rand, next);

    var pools := SplitPools(most, middle, least, q);
    firstPool, next := ShuffleArray(pools.first, rand, next);
    secondPool, next := ShuffleArray(pools.second, rand, next);

    fromMost, fromMiddle, fromLeast := most[..q.most], middle[..q.middle], least[..q.least];
    PoolsCoverTiers(sorted, most, middle, least, q, firstPool, secondPool);
    PoolsMadeOf(sorted, total, most, middle, least, q, firstPool);
  }

  /**
   * Interleaving a list of ranked breeds with a list of unranked ones gives a
   * list whose ranked breeds are exactly the first list's.
   */
  lemma {:induction false} InterleaveRankedCount(m: seq<Dog>, ranked: seq<Dog>, unranked: seq<Dog>)
    requires Interleaves(m, ranked, unranked)
    requires AllRanked(ranked) && NoneRanked(unranked)
    ensures |m| == |ranked| + |unranked|
    ensures CountRanked(m) == |ranked|
  {
    InterleavesPermutation(m, ranked, unranked);
    InterleavesCountRanked(m, ranked, unranked);
    CountRankedAll(ranked);
    CountRankedAll(unranked);
  }

  /**
   * The even split of the shuffled unranked breeds and the two merge loops:
   * the first block interleaves the first pool with the first floor(m/2)
   * unranked breeds, the second block the second pool with the rest, and
   * the result is the two blocks one after the other.
   */
  method MergeHalves(firstPool: seq<Dog>, secondPool: seq<Dog>, withoutPop: seq<Dog>,
                     rand: nat -> real, pos: nat)
    returns (r: seq<Dog>, next: nat)
    requires IsRandomSource(rand)
    ensures multiset(r) == multiset(firstPool) + multiset(secondPool) + multiset(withoutPop)
    ensures |r| == |firstPool| + |secondPool| + |withoutPop|
    ensures Interleaves(r[..|firstPool| + |withoutPop| / 2], firstPool, withoutPop[..|withoutPop| / 2])
    ensures Interleaves(r[|firstPool| + |withoutPop| / 2..], secondPool, withoutPop[|withoutPop| / 2..])
    ensures next == pos + |r|
  {
    var half := |withoutPop| / 2;
    var noPopFirst, noPopSecond := withoutPop[..half], withoutPop[half..];

    var mergedFirst, mergedSecond;
    mergedFirst, next := MergeHalf(firstPool, noPopFirst, rand, pos);
    mergedSecond, next := MergeHalf(secondPool, noPopSecond, rand, next);
    r := mergedFirst + mergedSecond;

    InterleavesPermutation(mergedFirst, firstPool, noPopFirst);
    InterleavesPermutation(mergedSecond, secondPool, noPopSecond);
    assert withoutPop == noPopFirst + noPopSecond;
    assert r[..|firstPool| + half] == mergedFirst;
    assert r[|firstPool| + half..] == mergedSecond;
  }

  /**
   * What the first merged block of `unseen`'s presentation order is made of:
   * the planned quota of breeds from each popularity tier of the sorted
   * ranked breeds, and half of the unranked breeds; nothing else.
   */
  ghost predicate FirstBlockMadeOf(unseen: seq<Dog>, block: seq<Dog>, fromMost: seq<Dog>, fromMiddle: seq<Dog>,
                                   fromLeast: seq<Dog>, fromUnranked: seq<Dog>)
  {
    && TierQuotas(SplitTiers(SortByPopularity(RankedOf(unseen))), PlannedQuota(|unseen|, CountRanked(unseen)),
                  fromMost, fromMiddle, fromLeast)
    && |fromUnranked| == |UnrankedOf(unseen)| / 2 && multiset(fromUnranked) <= multiset(UnrankedOf(unseen))
    && multiset(block) == multiset(fromMost) + multiset(fromMiddle) + multiset(fromLeast) + multiset(fromUnranked)
  }

  /**
   * A first block that interleaves a first pool of the planned tier make-up
   * with the first half of the shuffled unranked breeds is made of exactly
   * those tier quotas and that half.
   */
  lemma {:induction false} FirstBlockMakeUp(unseen: seq<Dog>, sorted: seq<Dog>, shuffled: seq<Dog>,
                                            firstPool: seq<Dog>, r: seq<Dog>,
                                            fromMost: seq<Dog>, fromMiddle: seq<Dog>, fromLeast: seq<Dog>)
    requires sorted == SortByPopularity(RankedOf(unseen))
    requires PoolMadeOf(sorted, |unseen|, firstPool, fromMost, fromMiddle, fromLeast)
    requires |shuffled| == |UnrankedOf(unseen)| && multiset(shuffled) == multiset(UnrankedOf(unseen))
    requires CountRanked(unseen) == |RankedOf(unseen)|
    requires |firstPool| + |shuffled| / 2 <= |r|
    requires Interleaves(r[..|firstPool| + |shuffled| / 2], firstPool, shuffled[..|shuffled| / 2])
    ensures FirstBlockMadeOf(unseen, r[..|firstPool| + |shuffled| / 2], fromMost, fromMiddle, fromLeast,
                             shuffled[..|shuffled| / 2])
  {
    PartsSubMultiset(shuffled, |shuffled| / 2);
    InterleavesPermutation(r[..|firstPool| + |shuffled| / 2], firstPool, shuffled[..|shuffled| / 2]);
  }

  /**
   * The ranked counts of the two merged blocks, each an interleaving of a
   * pool of ranked breeds with a share of the unranked ones: each block's
   * ranked breeds are its pool's, and the whole order's are both pools'.
   */
  lemma {:induction false} BlockRankedCounts(r: seq<Dog>, k: nat, firstPool: seq<Dog>, secondPool: seq<Dog>, shuffled: seq<Dog>)
    requires AllRanked(firstPool) && AllRanked(secondPool) && NoneRanked(shuffled)
    requires |r| == |firstPool| + |secondPool| + |shuffled| && k == |firstPool| + |shuffled| / 2
    requires Interleaves(r[..k], firstPool, shuffled[..|shuffled| / 2])
    requires Interleaves(r[k..], secondPool, shuffled[|shuffled| / 2..])
    ensures CountRanked(r[..k]) == |firstPool|
    ensures CountRanked(r[k..]) == |secondPool|
    ensures CountRanked(r) == |firstPool| + |secondPool|
  {
    assert NoneRanked(shuffled[..|shuffled| / 2]) && NoneRanked(shuffled[|shuffled| / 2..]);
    InterleaveRankedCount(r[..k], firstPool, shuffled[..|shuffled| / 2]);
    InterleaveRankedCount(r[k..], secondPool, shuffled[|shuffled| / 2..]);
    CountRankedSplit(r, k);
  }

  /**
   * The pools are ranked breeds only and the shuffled unranked list is
   * unranked breeds only, since each is drawn from the split's lists; so the
   * merged blocks hold exactly the pools' breeds as their ranked breeds.
   */
  lemma {:induction false} PoolBlockCounts(withPop: seq<Dog>, withoutPop: seq<Dog>, sorted: seq<Dog>, shuffled: seq<Dog>,
                        firstPool: seq<Dog>, secondPool: seq<Dog>, r: seq<Dog>)
    requires AllRanked(withPop) && NoneRanked(withoutPop)
    requires multiset(sorted) == multiset(withPop) && multiset(shuffled) == multiset(withoutPop)
    requires AllRanked(sorted) ==> AllRanked(firstPool) && AllRanked(secondPool)
    requires |r| == |firstPool| + |secondPool| + |shuffled|
    requires Interleaves(r[..|firstPool| + |shuffled| / 2], firstPool, shuffled[..|shuffled| / 2])
    requires Interleaves(r[|firstPool| + |shuffled| / 2..], secondPool, shuffled[|shuffled| / 2..])
    ensures CountRanked(r[..|firstPool| + |shuffled| / 2]) == |firstPool|
    ensures CountRanked(r[|firstPool| + |shuffled| / 2..]) == |secondPool|
    ensures CountRanked(r) == |firstPool| + |secondPool|
  {
    RankedBySubMultiset(sorted, withPop);
    RankedBySubMultiset(shuffled, withoutPop);
    BlockRankedCounts(r, |firstPool| + |shuffled| / 2, firstPool, secondPool, shuffled);
  }

  /**
   * The first half's length is the planned ranked slots plus half of the
   * unranked breeds, whatever the ranked breeds are.
   */
  lemma {:induction false} FirstHalfLengthIs(unseen: seq<Dog>, planned: nat, unranked: nat)
    requires |unseen| - CountRanked(unseen) == unranked
    requires planned == PlannedQuota(|unseen|, CountRanked(unseen)).Sum()
    ensures FirstHalfLength(unseen) == planned + unranked / 2
  {
  }

  /**
   * The ranked counts of the randomized order at the first-half boundary,
   * from the counts of its two blocks and the first pool's planned size.
   */
  lemma {:induction false} RandomizeCounts(unseen: seq<Dog>, withPop: seq<Dog>, withoutPop: seq<Dog>, sorted: seq<Dog>,
                        shuffled: seq<Dog>, firstPool: seq<Dog>, secondPool: seq<Dog>, r: seq<Dog>)
    requires |unseen| == |withPop| + |withoutPop| && CountRanked(unseen) == |withPop|
    requires |sorted| == |withPop| && |shuffled| == |withoutPop|
    requires |firstPool| + |secondPool| == |sorted|
    requires |firstPool| == PlannedQuota(|unseen|, |sorted|).Sum()
    requires |r| == |firstPool| + |secondPool| + |shuffled|
    requires CountRanked(r[..|firstPool| + |shuffled| / 2]) == |firstPool|
    requires CountRanked(r[|firstPool| + |shuffled| / 2..]) == |secondPool|
    requires CountRanked(r) == |firstPool| + |secondPool|
    ensures FirstHalfLength(unseen) == |firstPool| + |shuffled| / 2
    ensures CountRanked(r[..|firstPool| + |shuffled| / 2]) == PlannedQuota(|unseen|, CountRanked(unseen)).Sum()
    ensures CountRanked(r[|firstPool| + |shuffled| / 2..]) ==
      CountRanked(unseen) - PlannedQuota(|unseen|, CountRanked(unseen)).Sum()
    ensures CountRanked(r) == CountRanked(unseen)
  {
    FirstHalfLengthIs(unseen, |firstPool|, |shuffled|);
    assert CountRanked(unseen) - PlannedQuota(|unseen|, CountRanked(unseen)).Sum() == |secondPool|;
  }

  /**
   * What the randomized order promises, from what each of its steps
   * promises: the split by popularity, the sort, the shuffle of the unranked
   * breeds, the pools and the two merged blocks.
   */
  lemma {:induction false} RandomizeOutcome(unseen: seq<Dog>, withPop: seq<Dog>, withoutPop: seq<Dog>,
                                            sorted: seq<Dog>, shuffled: seq<Dog>, firstPool: seq<Dog>,
                                            secondPool: seq<Dog>, r: seq<Dog>,
                                            fromMost: seq<Dog>, fromMiddle: seq<Dog>, fromLeast: seq<Dog>)
    requires withPop == RankedOf(unseen) && withoutPop == UnrankedOf(unseen)
    requires AllRanked(withPop) && NoneRanked(withoutPop)
    requires |unseen| == |withPop| + |withoutPop| && CountRanked(unseen) == |withPop|
    requires sorted == SortByPopularity(withPop)
    requires |sorted| == |withPop| && multiset(sorted) == multiset(withPop)
    requires |shuffled| == |withoutPop| && multiset(shuffled) == multiset(withoutPop)
    requires |firstPool| + |secondPool| == |sorted|
    requires |firstPool| == PlannedQuota(|unseen|, |sorted|).Sum()
    requires PoolMadeOf(sorted, |unseen|, firstPool, fromMost, fromMiddle, fromLeast)
    requires AllRanked(sorted) ==> AllRanked(firstPool) && AllRanked(secondPool)
    requires |r| == |firstPool| + |secondPool| + |shuffled|
    requires Interleaves(r[..|firstPool| + |shuffled| / 2], firstPool, shuffled[..|shuffled| / 2])
    requires Interleaves(r[|firstPool| + |shuffled| / 2..], secondPool, shuffled[|shuffled| / 2..])
    ensures FirstHalfLength(unseen) == |firstPool| + |shuffled| / 2 <= |r|
    ensures FirstBlockMadeOf(unseen, r[..|firstPool| + |shuffled| / 2], fromMost, fromMiddle, fromLeast,
                             shuffled[..|shuffled| / 2])
    ensures CountRanked(r[..|firstPool| + |shuffled| / 2]) == PlannedQuota(|unseen|, CountRanked(unseen)).Sum()
    ensures CountRanked(r[|firstPool| + |shuffled| / 2..]) ==
      CountRanked(unseen) - PlannedQuota(|unseen|, CountRanked(unseen)).Sum()
    ensures CountRanked(r) == CountRanked(unseen)
  {
    PoolBlockCounts(withPop, withoutPop, sorted, shuffled, firstPool, secondPool, r);
    RandomizeCounts(unseen, withPop, withoutPop, sorted, shuffled, firstPool, secondPool, r);
    FirstBlockMakeUp(unseen, sorted, shuffled, firstPool, r, fromMost, fromMiddle, fromLeast);
  }

  /**
   * The body of getUnseenDogsRandomized after the unseen list is computed.
   * For every random outcome the result is a permutation of the unseen
   * breeds; its first merged block is made of the planned quota from each
   * popularity tier plus half of the unranked breeds (the ghost outputs name
   * them), so it holds exactly the planned number of ranked breeds, and the
   * second block holds all the other ranked breeds.
   */
  method Randomize(unseen: seq<Dog>, rand: nat -> real, pos: nat)
    returns (r: seq<Dog>, next: nat,
             ghost fromMost: seq<Dog>, ghost fromMiddle: seq<Dog>, ghost fromLeast: seq<Dog>,
             ghost fromUnranked: seq<Dog>)
    requires IsRandomSource(rand)
    ensures |r| == |unseen|
    ensures multiset(r) == multiset(unseen)
    ensures FirstHalfLength(unseen) <= |r|
    ensures FirstBlockMadeOf(unseen, r[..FirstHalfLength(unseen)], fromMost, fromMiddle, fromLeast, fromUnranked)
    ensures CountRanked(r[..FirstHalfLength(unseen)]) == PlannedQuota(|unseen|, CountRanked(unseen)).Sum()
    ensures CountRanked(r[FirstHalfLength(unseen)..]) ==
      CountRanked(unseen) - PlannedQuota(|unseen|, CountRanked(unseen)).Sum()
    ensures CountRanked(r) == CountRanked(unseen)
    ensures next >= pos
  {
    var withPop, withoutPop := SplitByPopularity(unseen);
    var sorted := SortByPopularity(withPop);
    var shuffledWithout;
    shuffledWithout, next := ShuffleArray(withoutPop, rand, pos);

    var firstPool, secondPool;
    firstPool, secondPool, next, fromMost, fromMiddle, fromLeast := BuildPools(sorted, |unseen|, rand, next);

    r, next := MergeHalves(firstPool, secondPool, shuffledWithout, rand, next);

    fromUnranked := shuffledWithout[..|shuffledWithout| / 2];
    RandomizeOutcome(unseen, withPop, withoutPop, sorted, shuffledWithout, firstPool, secondPool, r,
                     fromMost, fromMiddle, fromLeast);
    assert r[..FirstHalfLength(unseen)] == r[..|firstPool| + |shuffledWithout| / 2];
  }
}
