/**
 * The preference store as pure functions over the storage medium: a map from
 * storage key to the stored list of breed names. A key missing from the map
 * is a key that was never written (or was removed). JSON encoding is left
 * abstract: the map holds the decoded list.
 */
module Preferences {
  import opened Sequences

  const LikedKey: string := "likedDogs"
  const DislikedKey: string := "dislikedDogs"

  type Storage = map<string, seq<string>>

  datatype Category = Liked | Disliked

  function Key(c: Category): string {
    match c
    case Liked => LikedKey
    case Disliked => DislikedKey
  }

  function Opposite(c: Category): Category {
    match c
    case Liked => Disliked
    case Disliked => Liked
  }

  /** Reading a key: the stored list, or `[]` when nothing was ever written. */
  function Read(m: Storage, key: string): seq<string> {
    if key in m then m[key] else []
  }

  /** The list with every occurrence of `dogId` filtered out. */
  function Without(list: seq<string>, dogId: string): (r: seq<string>)
    ensures dogId !in r
    ensures forall x :: x != dogId ==> multiset(r)[x] == multiset(list)[x]
  {
    Filter(list, id => id != dogId)
  }

  /**
   * removeDogFromList: a missing key is left alone (nothing is written);
   * otherwise the stored list loses every occurrence of `dogId`.
   */
  function RemoveFrom(m: Storage, key: string, dogId: string): (r: Storage)
    ensures r.Keys == m.Keys
    ensures forall k :: k in m && k != key ==> r[k] == m[k]
    ensures key !in m ==> r == m
    ensures key in m ==> (dogId !in r[key] &&
      forall x :: x != dogId ==> multiset(r[key])[x] == multiset(m[key])[x])
  {
    if key !in m then m else m[key := Without(m[key], dogId)]
  }

  /**
   * addLikedDog (dest == Liked) and addDislikedDog (dest == Disliked):
   * remove the name from the opposite list, then append it to the
   * destination list unless it is already there.
   */
  function Add(m: Storage, dest: Category, dogId: string): (r: Storage)
    ensures dogId in Read(r, Key(dest))
    ensures dogId !in Read(r, Key(Opposite(dest)))
    ensures forall k :: k != LikedKey && k != DislikedKey ==>
      (k in r <==> k in m) && (k in m ==> r[k] == m[k])
  {
    var cleared := RemoveFrom(m, Key(Opposite(dest)), dogId);
    var list := Read(cleared, Key(dest));
    if dogId in list then cleared else cleared[Key(dest) := list + [dogId]]
  }

  /** clearAllPreferences: both keys are removed. */
  function Clear(m: Storage): (r: Storage)
    ensures Read(r, LikedKey) == [] && Read(r, DislikedKey) == []
    ensures forall k :: k != LikedKey && k != DislikedKey ==>
      (k in r <==> k in m) && (k in m ==> r[k] == m[k])
  {
    m - {LikedKey, DislikedKey}
  }

  /** The store's invariant: no duplicates in either list, and no name in both. */
  predicate Consistent(m: Storage) {
    NoDup(Read(m, LikedKey)) && NoDup(Read(m, DislikedKey)) &&
    Disjoint(Read(m, LikedKey), Read(m, DislikedKey))
  }

  /** The destination list keeps its order and at most gains `dogId` at its end. */
  lemma AddAppendsOnly(m: Storage, dest: Category, dogId: string)
    ensures var before := Read(m, Key(dest));
      Read(Add(m, dest, dogId), Key(dest)) ==
        if dogId in before then before else before + [dogId]
    ensures Read(Add(m, dest, dogId), Key(Opposite(dest))) ==
      Without(Read(m, Key(Opposite(dest))), dogId)
  {
  }

  /** A name is never appended twice: its count becomes 1 if it was absent, else stays. */
  lemma AddNeverDuplicates(m: Storage, dest: Category, dogId: string)
    ensures var n := multiset(Read(m, Key(dest)))[dogId];
      multiset(Read(Add(m, dest, dogId), Key(dest)))[dogId] == if n == 0 then 1 else n
  {
    AddAppendsOnly(m, dest, dogId);
  }

  /** Adding preserves the invariant: no duplicates, no name in both lists. */
  lemma AddPreservesConsistency(m: Storage, dest: Category, dogId: string)
    requires Consistent(m)
    ensures Consistent(Add(m, dest, dogId))
  {
    var r := Add(m, dest, dogId);
    AddAppendsOnly(m, dest, dogId);
    var before, other := Read(m, Key(dest)), Read(m, Key(Opposite(dest)));
    var after, otherAfter := Read(r, Key(dest)), Read(r, Key(Opposite(dest)));
    assert NoDup(before) && NoDup(other) && Disjoint(before, other) && Disjoint(other, before) by {
      if dest == Liked {} else {}
    }
    assert NoDup(after) by {
      if dogId !in before {
        forall x | x in after ensures multiset(after)[x] == 1 {
          if x != dogId { assert x in before; }
        }
      }
    }
    assert NoDup(otherAfter) by {
      forall x | x in otherAfter ensures multiset(otherAfter)[x] == 1 {
        assert multiset(otherAfter)[x] == multiset(other)[x];
        assert x in multiset(other);
      }
    }
    assert Disjoint(after, otherAfter) by {
      forall x | x in after ensures x !in otherAfter {
        if x != dogId {
          assert x in before;
          assert x !in other;
          assert multiset(otherAfter)[x] == multiset(other)[x];
        }
      }
    }
    assert Disjoint(otherAfter, after);
    if dest == Liked {
      assert Consistent(r);
    } else {
      assert Consistent(r);
    }
  }

  /**
   * Adding a name that is already in the destination list leaves that list as
   * it is; when the invariant holds, the whole storage is unchanged.
   */
  lemma AddWhenPresent(m: Storage, dest: Category, dogId: string)
    requires dogId in Read(m, Key(dest))
    ensures Read(Add(m, dest, dogId), Key(dest)) == Read(m, Key(dest))
    ensures Consistent(m) ==> Add(m, dest, dogId) == m
  {
    AddAppendsOnly(m, dest, dogId);
    if Consistent(m) {
      var okey := Key(Opposite(dest));
      var other := Read(m, okey);
      assert dogId !in other by {
        if dest == Liked {} else {}
      }
      if okey in m {
        FilterAllKept(other, id => id != dogId);
        assert RemoveFrom(m, okey, dogId) == m;
      }
    }
  }

  /** Calling add twice in a row has the effect of calling it once. */
  lemma AddIdempotent(m: Storage, dest: Category, dogId: string)
    ensures Add(Add(m, dest, dogId), dest, dogId) == Add(m, dest, dogId)
  {
    var once := Add(m, dest, dogId);
    var okey := Key(Opposite(dest));
    AddAppendsOnly(m, dest, dogId);
    AddAppendsOnly(once, dest, dogId);
    if okey in once {
      FilterIdempotent(Read(m, okey), id => id != dogId);
      assert RemoveFrom(once, okey, dogId) == once;
    }
  }

  /** Clearing twice is clearing once. */
  lemma ClearIdempotent(m: Storage)
    ensures Clear(Clear(m)) == Clear(m)
  {
  }

  /** The operations the rest of the application performs on the store. */
  datatype Action = Like(dogId: string) | Dislike(dogId: string)
                  | MoveTo(dogId: string, dest: Category) | ClearAll

  function Apply(m: Storage, a: Action): Storage {
    match a
    case Like(id) => Add(m, Liked, id)
    case Dislike(id) => Add(m, Disliked, id)
    case MoveTo(id, dest) => Add(m, dest, id)
    case ClearAll => Clear(m)
  }

  function ApplyAll(m: Storage, actions: seq<Action>): Storage
    decreases |actions|
  {
    if actions == [] then m else ApplyAll(Apply(m, actions[0]), actions[1..])
  }

  /**
   * Mutual exclusion and duplicate-freedom hold after every sequence of likes,
   * dislikes, moves and resets that starts from a consistent storage (a fresh
   * install, with nothing written, is one).
   */
  lemma {:induction false} ActionsPreserveConsistency(m: Storage, actions: seq<Action>)
    requires Consistent(m)
    ensures Consistent(ApplyAll(m, actions))
    decreases |actions|
  {
    if actions != [] {
      match actions[0] {
        case Like(id) => AddPreservesConsistency(m, Liked, id);
        case Dislike(id) => AddPreservesConsistency(m, Disliked, id);
        case MoveTo(id, dest) => AddPreservesConsistency(m, dest, id);
        case ClearAll =>
      }
      ActionsPreserveConsistency(Apply(m, actions[0]), actions[1..]);
    }
  }
}
