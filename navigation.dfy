/**
 * The neighbour navigation of the detail page: the list page stores the ids
 * it displays in a session slot, and the detail page looks up the id before
 * and after the current one, in an explicit list when it has one and in the
 * stored list otherwise.
 */
module Navigation {
  import opened Wrappers

  /** What is kept in the session slot: the displayed ids and when they were saved. */
  datatype NavigationSnapshot = NavigationSnapshot(ids: seq<int>, timestamp: int)

  /**
   * The session slot: nothing (missing, or the empty string), text that is
   * not JSON, or a stored snapshot.
   */
  datatype SessionSlot = Empty | Corrupt | Holds(snapshot: NavigationSnapshot)

  datatype NeighborIds = NeighborIds(prevId: Option<int>, nextId: Option<int>)

  const NoNeighbors := NeighborIds(None, None)

  /** Reading the slot: anything but a stored snapshot means no snapshot, never an error. */
  function ReadSnapshot(slot: SessionSlot): (s: Option<NavigationSnapshot>)
    ensures s.Some? <==> slot.Holds?
    ensures s.Some? ==> s.value == slot.snapshot
  {
    match slot
    case Empty => None
    case Corrupt => None
    case Holds(snapshot) => Some(snapshot)
  }

  /** `Array.prototype.indexOf`: the first index holding `x`, or -1. */
  function IndexOf(ids: seq<int>, x: int): (i: int)
    ensures -1 <= i < |ids|
    ensures i == -1 <==> x !in ids
    ensures 0 <= i ==> ids[i] == x && forall j :: 0 <= j < i ==> ids[j] != x
  {
    if |ids| == 0 then -1
    else if ids[0] == x then 0
    else
      var i := IndexOf(ids[1..], x);
      if i == -1 then -1 else i + 1
  }

  /** The ids before and after the first occurrence of `currentId` in `ids`. */
  function Neighbors(ids: seq<int>, currentId: int): (r: NeighborIds)
    ensures currentId !in ids ==> r == NoNeighbors
    ensures currentId in ids ==>
      var i := IndexOf(ids, currentId);
      && (r.prevId.Some? <==> i > 0)
      && (i > 0 ==> r.prevId.value == ids[i - 1])
      && (r.nextId.Some? <==> i < |ids| - 1)
      && (i < |ids| - 1 ==> r.nextId.value == ids[i + 1])
  {
    if |ids| == 0 then NoNeighbors
    else
      var index := IndexOf(ids, currentId);
      if index == -1 then NoNeighbors
      else NeighborIds(
        if index > 0 then Some(ids[index - 1]) else None,
        if index < |ids| - 1 then Some(ids[index + 1]) else None)
  }

  /** No list, or an empty one, has no neighbours; neither has a one-element list. */
  lemma NeighborsOfShortLists(currentId: int, x: int)
    ensures Neighbors([], currentId) == NoNeighbors
    ensures Neighbors([x], currentId) == NoNeighbors
  {
  }

  predicate Distinct(ids: seq<int>) {
    forall i, j :: 0 <= i < j < |ids| ==> ids[i] != ids[j]
  }

  /**
   * In a list without repeated ids, stepping forward and then back returns
   * to where one started, and the other way round.
   */
  lemma NeighborsInverse(ids: seq<int>, x: int, y: int)
    requires Distinct(ids)
    ensures Neighbors(ids, x).nextId == Some(y) <==> Neighbors(ids, y).prevId == Some(x)
  {
    if Neighbors(ids, x).nextId == Some(y) {
      var i := IndexOf(ids, x);
      assert ids[i + 1] == y;
      assert IndexOf(ids, y) == i + 1;
    }
    if Neighbors(ids, y).prevId == Some(x) {
      var j := IndexOf(ids, y);
      assert ids[j - 1] == x;
      assert IndexOf(ids, x) == j - 1;
    }
  }

  /** The session storage of the tab, as far as navigation uses it. */
  class NavigationStore {
    var slot: SessionSlot

    constructor (initial: SessionSlot)
      ensures slot == initial
    {
      slot := initial;
    }

    /** The stored snapshot, if the slot holds one. */
    function GetSnapshot(): (s: Option<NavigationSnapshot>)
      reads this
      ensures s.Some? <==> slot.Holds?
      ensures s.Some? ==> s.value == slot.snapshot
    {
      ReadSnapshot(slot)
    }

    /**
     * Stores the ids with the time `now`, overwriting any earlier snapshot;
     * an empty list leaves the slot as it was.
     */
    method SaveNavigationSnapshot(ids: seq<int>, now: int)
      modifies this
      ensures |ids| == 0 ==> slot == old(slot)
      ensures |ids| > 0 ==> slot == Holds(NavigationSnapshot(ids, now))
      ensures |ids| > 0 ==> GetSnapshot() == Some(NavigationSnapshot(ids, now))
    {
      if |ids| == 0 {
        return;
      }
      var snapshot := NavigationSnapshot(ids, now);
      slot := Holds(snapshot);
    }

    /**
     * The neighbours of `currentId`: in the fallback list when one is given,
     * even an empty one, and in the stored snapshot otherwise.
     */
    function GetNeighborIds(currentId: int, fallbackIds: Option<seq<int>>): (r: NeighborIds)
      reads this
      ensures fallbackIds.Some? ==> r == Neighbors(fallbackIds.value, currentId)
      ensures fallbackIds.None? && slot.Holds? ==> r == Neighbors(slot.snapshot.ids, currentId)
      ensures fallbackIds.None? && !slot.Holds? ==> r == NoNeighbors
    {
      var snapshot := if fallbackIds.Some? then Some(fallbackIds.value) else
        var s := GetSnapshot(); if s.Some? then Some(s.value.ids) else None;
      if snapshot.None? || |snapshot.value| == 0 then NoNeighbors
      else Neighbors(snapshot.value, currentId)
    }
  }

  /** Saving a list and then looking up without a fallback uses exactly that list. */
  method SaveThenLookUp(store: NavigationStore, ids: seq<int>, now: int, currentId: int) returns (r: NeighborIds)
    requires |ids| > 0
    modifies store
    ensures r == Neighbors(ids, currentId)
  {
    store.SaveNavigationSnapshot(ids, now);
    r := store.GetNeighborIds(currentId, None);
  }

  /** The neighbours in a small list, as the detail page shows them. */
  lemma NeighborsExample()
    ensures Neighbors([10, 20, 30], 10) == NeighborIds(None, Some(20))
    ensures Neighbors([10, 20, 30], 20) == NeighborIds(Some(10), Some(30))
    ensures Neighbors([10, 20, 30], 30) == NeighborIds(Some(20), None)
    ensures Neighbors([10, 20, 30], 40) == NoNeighbors
    ensures Neighbors([10, 20, 10], 10) == NeighborIds(None, Some(20))
  {
  }
}
