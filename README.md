# Dog preference storage and unseen-breed selection, in Dafny

This project models the core of a dog-breed browsing app, `utils/dogStorage.ts`. The core has two parts.

- **The preference store.** Two persisted lists of breed names, stored under the keys `likedDogs` and `dislikedDogs`. The operations are:
  - `getLikedDogs` and `getDislikedDogs`;
  - the internal `removeDogFromList`;
  - `addLikedDog` and `addDislikedDog`, which remove the name from the opposite list first and then append it unless it is already there;
  - `moveDogToCategory`;
  - `clearAllPreferences`.
- **The selection engine.**
  - `getUnseenDogs` filters the catalog down to the breeds named in neither list.
  - `getUnseenDogsRandomized` reorders those breeds:
    1. split them by whether a popularity rank is present;
    2. sort the ranked ones;
    3. cut them into three tiers of size ceil(n/3);
    4. ask for floor(total/4) ranked breeds in the first half, where total is the number of unseen breeds, split 60/25/15 over the tiers and clamped to each tier's size;
    5. Fisher–Yates shuffle every tier and both pools;
    6. merge each pool with half of the shuffled unranked breeds using a coin flip per element.

The Dafny modules follow that structure:

- `Wrappers`: `Option`.
- `Dogs`: the breed record, its rank, and counting ranked breeds.
- `Sequences`: `Filter`, and the `Interleaves` relation (an order-preserving merge of two sequences).
- `Preferences`: the store as pure functions over the storage medium. The medium is a `map<string, seq<string>>`, and a missing key is a key never written. This module also holds the store's invariant and its lemmas.
- `Shuffle`: the random source and `shuffleArray`, as an in-place loop over an array.
- `Selection`: the unseen filter and every step of the randomized ordering.
- `DogStorage`: the class `DogStore`. Its field `items` is the storage medium, and its methods are the exported helpers, each tied to the pure model by its postcondition.

`Math.random` becomes an oracle. A caller passes a stream `rand: nat -> real` of draws in [0, 1) and a start position. Every consumer reads the next draws and returns the advanced position, so each property holds for every possible sequence of random outcomes. A Fisher–Yates index is `floor(rand(k) * (i + 1))`, and a merge coin is `rand(k) > 0.5`, as in the source.

Some behaviour of the code is easy to misread, and the model states it as the code does it:

- **Stored lists are lists.**
  - `getLikedDogs` returns the stored array as it is (utils/dogStorage.ts:10-13), including any duplicates it might hold.
  - Freedom from duplicates and mutual exclusion are proved as an invariant: `Preferences.Consistent`, kept by every add, move and clear.
- **Reads have no error branch.** A key that is absent reads as the empty list (utils/dogStorage.ts:12 and :17). JSON parsing is abstract, so data that is present but corrupted is not modelled. The source has no `try` around `JSON.parse`, so a parse failure would propagate to the caller.
- **The least tier's shortfall is not redistributed.** When the least-popular tier is smaller than its request, the request is clamped and no other tier makes up the difference. The first half then gets fewer ranked slots than the floor(total/4) it asked for, and `Selection.ShortfallNotRedistributed` states this.
  - Example: 10 unseen breeds, 4 of them ranked.
  - Two ranked slots are wanted: 1 from the most-popular tier, 0 from the middle tier, 1 from the least-popular tier.
  - The tiers hold 2, 2 and 0 breeds, so the first merged block holds a single ranked breed and three unranked ones. The comment at utils/dogStorage.ts:134 says the first half should hold about 50% popularity breeds, which would be two of these four.
- **The result is defined for every outcome.** `getUnseenDogsRandomized` is modelled as a function of the random draws. What is proved holds for every outcome, not on average.

## Model

| member | source | states |
|---|---|---|
| DogStorage.DogStore.constructor | utils/dogStorage.ts:10-18 | a fresh install has written no key, and that state satisfies the store invariant |
| DogStorage.DogStore.GetLikedDogs | utils/dogStorage.ts:10-13 | returns the list stored under `likedDogs`, or the empty list when the key was never written |
| DogStorage.DogStore.GetDislikedDogs | utils/dogStorage.ts:15-18 | returns the list stored under `dislikedDogs`, or the empty list when the key was never written |
| DogStorage.DogStore.RemoveDogFromList | utils/dogStorage.ts:21-28 | the new storage is `RemoveFrom` of the old: an absent key leaves storage untouched, otherwise every occurrence of the name leaves that list |
| DogStorage.DogStore.AddLikedDog | utils/dogStorage.ts:32-41 | the new storage is `Add(old, Liked, name)`; afterwards the name is liked and not disliked, and a consistent store stays consistent |
| DogStorage.DogStore.AddDislikedDog | utils/dogStorage.ts:43-52 | the new storage is `Add(old, Disliked, name)`; afterwards the name is disliked and not liked, and a consistent store stays consistent |
| DogStorage.DogStore.MoveDogToCategory | utils/dogStorage.ts:57-66 | whatever the name's prior state, it ends up in the destination list and not in the other, and consistency is kept |
| DogStorage.DogStore.ClearAllPreferences | utils/dogStorage.ts:68-71 | both keys are removed, so both lists read as empty; no other key changes, and the store is consistent afterwards |
| DogStorage.DogStore.GetUnseenDogs | utils/dogStorage.ts:76-85 | returns `Unseen` of the catalog and the two stored lists |
| DogStorage.DogStore.GetUnseenDogsRandomized | utils/dogStorage.ts:99-216 | for every random stream, the result is a permutation of the unseen breeds; its first merged block is made of exactly the clamped quota of breeds drawn from each popularity tier plus half of the unranked breeds, so it holds exactly the planned number of ranked breeds, and the rest of the order holds all the other ranked breeds |
| Preferences.Without | utils/dogStorage.ts:26 | the name no longer occurs in the list, and every other name keeps its count |
| Preferences.RemoveFrom | utils/dogStorage.ts:21-28 | the key set is unchanged and other keys are untouched; an absent key means no change; a present key's list loses exactly the name |
| Preferences.Add | utils/dogStorage.ts:32-52 | the name is in the destination list and not in the opposite one; keys other than the two preference keys are untouched |
| Preferences.Clear | utils/dogStorage.ts:68-71 | both preference lists read as empty, and every other key is untouched |
| Preferences.AddAppendsOnly | utils/dogStorage.ts:34-40 | the destination list is unchanged if it already held the name, otherwise it gains the name at its end; the opposite list is filtered |
| Preferences.AddNeverDuplicates | utils/dogStorage.ts:37-40 | after an add, the name occurs once in the destination list if it was absent, and its count is unchanged otherwise |
| Preferences.AddPreservesConsistency | utils/dogStorage.ts:32-52 | an add keeps both lists duplicate-free and disjoint |
| Preferences.AddWhenPresent | utils/dogStorage.ts:37-40 | adding a name that is already in the destination leaves that list unchanged, and on a consistent store leaves the storage unchanged |
| Preferences.AddIdempotent | utils/dogStorage.ts:32-52 | adding the same name twice in a row has the effect of adding it once |
| Preferences.ClearIdempotent | utils/dogStorage.ts:68-71 | clearing twice is the same as clearing once |
| Preferences.ActionsPreserveConsistency | utils/dogStorage.ts:32-71 | starting from a consistent store, any sequence of likes, dislikes, moves and clears leaves the lists duplicate-free and mutually exclusive |
| Sequences.Filter | utils/dogStorage.ts:80-84 | the result keeps exactly the elements satisfying the predicate, each with its original count, and is no longer than the input |
| Sequences.FilterInterleaves | utils/dogStorage.ts:80-84 | the input is an interleaving of the kept and the dropped elements, so filtering keeps input order |
| Sequences.FilterIdempotent | utils/dogStorage.ts:26 | filtering twice with the same predicate is filtering once |
| Sequences.FilterAllKept | utils/dogStorage.ts:26 | a filter that keeps every element returns its input unchanged |
| Sequences.FilterExtend | utils/dogStorage.ts:108-114 | filtering one more element of a prefix appends it exactly when it is kept, and otherwise changes nothing |
| Sequences.PartsSubMultiset | utils/dogStorage.ts:153-173 | a prefix and the matching suffix of a list split its multiset, so a prefix is drawn from the list |
| Sequences.InterleavesPermutation | utils/dogStorage.ts:180-213 | an interleaving of two sequences has the summed length and the summed multiset of its sources |
| Dogs.CountRanked | utils/dogStorage.ts:123 | the number of ranked breeds in a list never exceeds its length |
| Dogs.CountRankedAll | utils/dogStorage.ts:108-114 | a list of ranked breeds has as many ranked breeds as elements, and a list of unranked breeds has none |
| Dogs.CountRankedAppend | utils/dogStorage.ts:215 | the ranked count of a concatenation is the sum of the ranked counts |
| Dogs.CountRankedSplit | utils/dogStorage.ts:215 | the ranked count of a list is the sum of the counts of a prefix and the matching suffix |
| Shuffle.RandomIndex | utils/dogStorage.ts:92 | `floor(x * (i + 1))` for a draw `x` in [0, 1) is a valid index at or below `i` |
| Shuffle.ShuffleArray | utils/dogStorage.ts:89-96 | the result is a permutation of the input, one draw is consumed per index from the last down to 1, and the input itself is not changed |
| Shuffle.SwapPermutes | utils/dogStorage.ts:93 | exchanging two elements keeps the multiset of the array |
| Selection.Unseen | utils/dogStorage.ts:80-84 | a breed is in the result exactly when it is in the catalog and its name is in neither list; each unseen breed keeps its catalog count |
| Selection.UnseenKeepsCatalogOrder | utils/dogStorage.ts:80-84 | the catalog is an interleaving of the unseen and the decided breeds, so the unseen breeds appear in catalog order |
| Selection.InterleavesCountRanked | utils/dogStorage.ts:176-193 | the ranked count of an interleaving is the sum of its sources' ranked counts |
| Selection.SplitByPopularity | utils/dogStorage.ts:104-114 | the two lists are the input's ranked and unranked breeds, each in input order; together they hold every input breed exactly once, and the ranked list is as long as the input's ranked count |
| Selection.SplitExtend | utils/dogStorage.ts:108-114 | each further input breed goes onto the end of exactly one of the two lists, chosen by whether it has a rank |
| Selection.RankedSplit | utils/dogStorage.ts:104-114 | the ranked and unranked breeds of a list interleave back into it, hold every breed of it once, and the ranked ones are as many as its ranked count |
| Selection.InsertByRank | utils/dogStorage.ts:117 | inserting a breed adds exactly that breed to the list and nothing else |
| Selection.SortByPopularity | utils/dogStorage.ts:117 | the sorted list is a permutation of its input |
| Selection.InsertByRankSorted | utils/dogStorage.ts:117 | inserting a breed into a list sorted by rank keeps it sorted |
| Selection.PrependSorted | utils/dogStorage.ts:117 | a breed ranked no higher than any breed of a sorted list can lead it and the list stays sorted |
| Selection.SortByPopularitySorted | utils/dogStorage.ts:117 | the sorted list is in ascending popularity order |
| Selection.ThirdSize | utils/dogStorage.ts:123-124 | the tier size is ceil(n/3): three tiers cover n with less than three to spare |
| Selection.SplitTiers | utils/dogStorage.ts:122-128 | the three tiers concatenate back to the sorted list; the first has ceil(n/3) breeds, and no tier is larger than the one before |
| Selection.FirstHalfPopNeeded | utils/dogStorage.ts:131-135 | the ranked slots wanted in the first half are the unseen total divided by four, rounded down |
| Selection.Requested | utils/dogStorage.ts:137-141 | the most-popular request is floor(60%) and the middle request is floor(25%); the three requests add up exactly to what is needed |
| Selection.Allocate | utils/dogStorage.ts:143-146 | each quota is its request clamped to its tier's size, and equals the tier size whenever it falls short; no more than requested is allocated, and all of it when every tier is large enough |
| Selection.ShortfallNotRedistributed | utils/dogStorage.ts:138-146 | when the least tier is smaller than its request, the first half receives fewer ranked slots than the floor(total/4) it asked for |
| Selection.SplitPools | utils/dogStorage.ts:153-164 | the first pool is each shuffled tier's prefix of its clamped quota, most popular tier first, and the second pool is the remaining suffixes in the same order; together they hold every tiered breed exactly once |
| Selection.FirstPoolIsPrefixes | utils/dogStorage.ts:153-158 | when no quota exceeds its tier, the first pool is exactly the quota's prefix of each tier and has the quota's total size |
| Selection.QuotaPrefix | utils/dogStorage.ts:149-158 | a prefix of a shuffled tier has the requested length and is drawn from that tier |
| Selection.PoolsCoverTiers | utils/dogStorage.ts:149-168 | pools cut from shuffled tiers and shuffled again hold every sorted ranked breed exactly once, and only ranked breeds |
| Selection.PoolsMadeOf | utils/dogStorage.ts:149-168 | the shuffled first pool has the planned size and is made of exactly the planned quota from the most popular, the middle and the least popular tier |
| Selection.BuildPools | utils/dogStorage.ts:122-168 | the two shuffled pools partition the sorted ranked breeds and hold only ranked breeds; the first pool is made of exactly the planned quota of breeds from each of the three tiers |
| Selection.MergeHalf | utils/dogStorage.ts:175-193 | for every sequence of coin flips, the merge is an interleaving of the pool and the unranked half (each keeps its order), with one draw per element |
| Selection.InterleaveRankedCount | utils/dogStorage.ts:175-193 | merging ranked and unranked breeds yields as many ranked breeds as the ranked source held |
| Selection.MergeHalves | utils/dogStorage.ts:170-215 | the result is a permutation of both pools and the unranked breeds; its first block interleaves the first pool with the first floor(m/2) unranked breeds, and the rest interleaves the second pool with the remaining unranked breeds |
| Selection.RankedBySubMultiset | utils/dogStorage.ts:153-168 | a sub-multiset of a ranked list contains only ranked breeds |
| Selection.FirstBlockMakeUp | utils/dogStorage.ts:170-193 | a first block that interleaves a first pool of the planned tier make-up with the first half of the shuffled unranked breeds is made of exactly those tier quotas and that half |
| Selection.BlockRankedCounts | utils/dogStorage.ts:175-215 | each merged block holds exactly its pool's breeds as ranked breeds, and the whole order holds both pools' |
| Selection.PoolBlockCounts | utils/dogStorage.ts:104-215 | since the pools come from the ranked list and the unranked half from the unranked list, the blocks' ranked counts are the pools' sizes |
| Selection.FirstHalfLengthIs | utils/dogStorage.ts:131-173 | the first block's length is the planned ranked slots plus floor(m/2) for m unranked breeds |
| Selection.RandomizeCounts | utils/dogStorage.ts:131-215 | the first block holds exactly the planned number of ranked breeds, the rest holds all the others, and no ranked breed is lost |
| Selection.RandomizeOutcome | utils/dogStorage.ts:102-215 | from what each step promises: the first block is made of the planned tier quotas plus half the unranked breeds, and the ranked counts of both blocks are as planned |
| Selection.Randomize | utils/dogStorage.ts:102-215 | for every random stream, the result is a permutation of the unseen breeds; its first block is made of exactly the planned quota from each popularity tier plus half of the unranked breeds, so it holds exactly the planned number of ranked breeds, and the rest holds all the others |

## Left out

- Asynchronous storage access is reduced to reads and writes of the map, with no suspension points. Concurrent calls interleaving at an `await` are not modelled.
- JSON encoding and decoding are abstract: the map holds the decoded lists. Corrupted stored data, and the exception `JSON.parse` would raise on it, are not modelled.
- Storage failures, such as an unavailable medium or a failed write, are not modelled. The source neither catches nor reports them.
- `Math.random` is an oracle parameter. The uniform distribution, and statistical claims about how many ranked breeds appear early on average, are outside what the model states.
- Selection.Requested: the source multiplies by the floating-point constants 0.6 and 0.25, which the model treats as exact rationals (`floor(6 * need / 10)` and `floor(need / 4)`). Floating-point rounding of `need * 0.6` is not modelled.
- Selection.SortByPopularity: modelled as a stable insertion sort on the rank. Stability is not stated, and neither is the engine's own ordering of equal ranks.
- Dogs.Rank: popularity is an unbounded integer; JavaScript number semantics (floats, `NaN`) are not modelled.
- Selection.Randomize: states that the returned stream position does not move backwards, not the exact number of draws consumed; DogStorage.DogStore.GetUnseenDogsRandomized states nothing about it.
- The breed catalog loader, the screens and the other UI code are not part of this model.
