/**
 * The neighbour buttons of the detail page: the neighbours come from the
 * ids handed over by the list page, and a neighbour id that is not truthy
 * is not followed.
 */
module AdDetailsPage {
  import opened Wrappers
  import opened Navigation
  import opened AdsListPage

  /** The id the detail page opens next, if any; a missing id and the id 0 are both ignored. */
  function HandleNavigate(nextId: Option<int>): (target: Option<int>)
    ensures target.Some? <==> nextId.Some? && nextId.value != 0
    ensures target.Some? ==> target.value == nextId.value
  {
    if nextId.Some? && nextId.value != 0 then nextId else None
  }

  /**
   * Opening the card at position `i` of a displayed list without repeated
   * ids offers the cards just before and after it, and the buttons follow
   * them unless their id is 0.
   */
  lemma CardClickNeighbors(store: NavigationStore, ids: seq<int>, i: nat)
    requires Distinct(ids) && i < |ids|
    ensures
      var n := store.GetNeighborIds(ids[i], Some(CardNeighbors(Some(ids))));
      && n.prevId == (if i > 0 then Some(ids[i - 1]) else None)
      && n.nextId == (if i < |ids| - 1 then Some(ids[i + 1]) else None)
      && HandleNavigate(n.nextId) == (if i < |ids| - 1 && ids[i + 1] != 0 then Some(ids[i + 1]) else None)
  {
  }

  /** Before the list page has data, the detail page has no neighbours to offer. */
  lemma NoDataNoNeighbors(store: NavigationStore, currentId: int)
    ensures store.GetNeighborIds(currentId, Some(CardNeighbors(None))) == NoNeighbors
  {
  }
}
