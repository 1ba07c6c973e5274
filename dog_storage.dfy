/**
 * The exported API of the dog storage helpers, as an explicit store object
 * over the key-value storage medium. Each method changes the stored map the
 * way the corresponding async helper changes persistent storage; its
 * contract ties the new map to the pure model in module Preferences, whose
 * lemmas carry the invariants.
 */
module DogStorage {
  import opened Dogs
  import opened Sequences
  import opened Preferences
  import opened Shuffle
  import opened Selection

  class DogStore {
    /** The storage medium: key to stored list of names; a missing key was never written. */
    var items: Storage

    /** A fresh install: nothing has been written. */
    constructor ()
      ensures items == map[]
      ensures Consistent(items)
    {
      items := map[];
    }

    function LikedDogs(): seq<string>
      reads this
    {
      Read(items, LikedKey)
    }

    function DislikedDogs(): seq<string>
      reads this
    {
      Read(items, DislikedKey)
    }

    /** getLikedDogs: the stored liked list, or `[]` when the key was never written. */
    method GetLikedDogs() returns (r: seq<string>)
      ensures r == LikedDogs()
      ensures LikedKey !in items ==> r == []
    {
      if LikedKey in items {
        r := items[LikedKey];
      } else {
        r := [];
      }
    }

    /** getDislikedDogs: the stored disliked list, or `[]` when the key was never written. */
    method GetDislikedDogs() returns (r: seq<string>)
      ensures r == DislikedDogs()
      ensures DislikedKey !in items ==> r == []
    {
      if DislikedKey in items {
        r := items[DislikedKey];
      } else {
        r := [];
      }
    }

    /**
     * removeDogFromList: nothing happens when the key is absent; otherwise
     * every occurrence of the name is filtered out and the list written back.
     */
    method RemoveDogFromList(dogId: string, key: string)
      modifies this
      ensures items == RemoveFrom(old(items), key, dogId)
    {
      if key !in items {
        return;
      }
      var list := items[key];
      var updatedList := Without(list, dogId);
      items := items[key := updatedList];
    }

    /**
     * addLikedDog: the name leaves the disliked list and is appended to the
     * liked list unless already there; a consistent store stays consistent.
     */
    method AddLikedDog(dogId: string)
      modifies this
      ensures items == Add(old(items), Liked, dogId)
      ensures dogId in LikedDogs() && dogId !in DislikedDogs()
      ensures old(Consistent(items)) ==> Consistent(items)
    {
      RemoveDogFromList(dogId, DislikedKey);
      var likedDogs := GetLikedDogs();
      if dogId !in likedDogs {
        likedDogs := likedDogs + [dogId];
        items := items[LikedKey := likedDogs];
      }
      if old(Consistent(items)) {
        AddPreservesConsistency(old(items), Liked, dogId);
      }
    }

    /**
     * addDislikedDog: the name leaves the liked list and is appended to the
     * disliked list unless already there; a consistent store stays consistent.
     */
    method AddDislikedDog(dogId: string)
      modifies this
      ensures items == Add(old(items), Disliked, dogId)
      ensures dogId in DislikedDogs() && dogId !in LikedDogs()
      ensures old(Consistent(items)) ==> Consistent(items)
    {
      RemoveDogFromList(dogId, LikedKey);
      var dislikedDogs := GetDislikedDogs();
      if dogId !in dislikedDogs {
        dislikedDogs := dislikedDogs + [dogId];
        items := items[DislikedKey := dislikedDogs];
      }
      if old(Consistent(items)) {
        AddPreservesConsistency(old(items), Disliked, dogId);
      }
    }

    /** moveDogToCategory: the name ends up in the destination list only. */
    method MoveDogToCategory(dogId: string, destination: Category)
      modifies this
      ensures items == Add(old(items), destination, dogId)
      ensures dogId in Read(items, Key(destination)) && dogId !in Read(items, Key(Opposite(destination)))
      ensures old(Consistent(items)) ==> Consistent(items)
    {
      if destination == Liked {
        AddLikedDog(dogId);
      } else {
        AddDislikedDog(dogId);
      }
    }

    /** clearAllPreferences: both keys are removed; every other key is untouched. */
    method ClearAllPreferences()
      modifies this
      ensures items == Clear(old(items))
      ensures LikedDogs() == [] && DislikedDogs() == []
      ensures Consistent(items)
    {
      items := items - {LikedKey};
      items := items - {DislikedKey};
    }

    /** getUnseenDogs: the catalog entries named in neither list, in catalog order. */
    method GetUnseenDogs(allDogs: seq<Dog>) returns (r: seq<Dog>)
      ensures r == Unseen(allDogs, LikedDogs(), DislikedDogs())
    {
      var likedDogs := GetLikedDogs();
      var dislikedDogs := GetDislikedDogs();
      r := Filter(allDogs, (dog: Dog) => dog.name !in likedDogs && dog.name !in dislikedDogs);
    }

    /**
     * getUnseenDogsRandomized: for every outcome of the random draws, a
     * permutation of the unseen breeds whose first merged block is made of
     * the planned quota from each popularity tier plus half of the unranked
     * breeds (named by the ghost outputs), so it holds exactly the planned
     * number of ranked breeds; the second block holds the other ranked ones.
     */
    method GetUnseenDogsRandomized(allDogs: seq<Dog>, rand: nat -> real, pos: nat)
      returns (r: seq<Dog>, next: nat,
               ghost fromMost: seq<Dog>, ghost fromMiddle: seq<Dog>, ghost fromLeast: seq<Dog>,
               ghost fromUnranked: seq<Dog>)
      requires IsRandomSource(rand)
      ensures multiset(r) == multiset(Unseen(allDogs, LikedDogs(), DislikedDogs()))
      ensures var unseen := Unseen(allDogs, LikedDogs(), DislikedDogs());
        && FirstHalfLength(unseen) <= |r|
        && CountRanked(r[..FirstHalfLength(unseen)]) == PlannedQuota(|unseen|, CountRanked(unseen)).Sum()
        && CountRanked(r[FirstHalfLength(unseen)..]) ==
             CountRanked(unseen) - PlannedQuota(|unseen|, CountRanked(unseen)).Sum()
      ensures var unseen := Unseen(allDogs, LikedDogs(), DislikedDogs());
        FirstHalfLength(unseen) <= |r| &&
        FirstBlockMadeOf(unseen, r[..FirstHalfLength(unseen)], fromMost, fromMiddle, fromLeast, fromUnranked)
    {
      var unseenDogs := GetUnseenDogs(allDogs);
      r, next, fromMost, fromMiddle, fromLeast, fromUnranked := Randomize(unseenDogs, rand, pos);
    }
  }
}
