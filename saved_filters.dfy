/**
 * Named filter presets, kept in memory and in a durable storage slot that
 * holds them as JSON.
 */
module SavedFilters {
  import opened AdsFilters

  datatype SavedFilter = SavedFilter(id: string, name: string, filters: FilterModel, createdAt: int)

  /**
   * The storage slot: nothing (missing, or the empty string), text that is
   * not JSON, or a stored list.
   */
  datatype StorageSlot = Missing | Corrupt | Stored(presets: seq<SavedFilter>)

  /** The stored list; a missing or unreadable slot reads as no presets, never an error. */
  function ReadStorage(slot: StorageSlot): (ps: seq<SavedFilter>)
    ensures slot.Stored? ==> ps == slot.presets
    ensures !slot.Stored? ==> ps == []
  {
    match slot
    case Missing => []
    case Corrupt => []
    case Stored(presets) => presets
  }

  /** `filter(p => p.id !== id)`: the entries whose id differs, in their order. */
  function WithoutId(ps: seq<SavedFilter>, id: string): (r: seq<SavedFilter>)
    ensures |r| <= |ps|
    ensures forall p :: p in r <==> p in ps && p.id != id
    ensures (forall i :: 0 <= i < |ps| ==> ps[i].id != id) ==> r == ps
  {
    if |ps| == 0 then []
    else if ps[0].id == id then WithoutId(ps[1..], id)
    else [ps[0]] + WithoutId(ps[1..], id)
  }

  /** Filtering a concatenation filters each part. */
  lemma {:induction false} WithoutIdConcat(a: seq<SavedFilter>, b: seq<SavedFilter>, id: string)
    ensures WithoutId(a + b, id) == WithoutId(a, id) + WithoutId(b, id)
  {
    if |a| == 0 {
      assert a + b == b;
    } else {
      assert (a + b)[0] == a[0];
      assert (a + b)[1..] == a[1..] + b;
      WithoutIdConcat(a[1..], b, id);
    }
  }

  /** Removing the id of a preset just appended, with an id not used before, restores the list. */
  lemma RemoveFreshRestores(ps: seq<SavedFilter>, p: SavedFilter)
    requires forall i :: 0 <= i < |ps| ==> ps[i].id != p.id
    ensures WithoutId(ps + [p], p.id) == ps
  {
    WithoutIdConcat(ps, [p], p.id);
    assert [p][1..] == [];
  }

  /** The presets of the list page: the list on screen and the stored copy. */
  class PresetStore {
    var presets: seq<SavedFilter>
    var storage: StorageSlot

    /** Before the first load the list is empty; the stored copy is whatever was there. */
    constructor (slot: StorageSlot)
      ensures presets == [] && storage == slot
    {
      presets := [];
      storage := slot;
    }

    /** The first load replaces the list by the stored contents. */
    method Load()
      modifies this
      ensures presets == ReadStorage(old(storage))
      ensures storage == old(storage)
    {
      presets := ReadStorage(storage);
    }

    /** Writes the list to memory and to storage together. */
    method Persist(next: seq<SavedFilter>)
      modifies this
      ensures presets == next && storage == Stored(next)
      ensures ReadStorage(storage) == presets
    {
      presets := next;
      storage := Stored(next);
    }

    /**
     * Appends a preset with the given name and filters, a fresh id and the
     * time `now`, and returns it. The name is not checked here.
     */
    method SavePreset(name: string, filters: FilterModel, id: string, now: int) returns (preset: SavedFilter)
      requires forall i :: 0 <= i < |presets| ==> presets[i].id != id
      modifies this
      ensures preset == SavedFilter(id, name, filters, now)
      ensures presets == old(presets) + [preset]
      ensures storage == Stored(presets)
    {
      preset := SavedFilter(id, name, filters, now);
      Persist(presets + [preset]);
    }

    /** Keeps exactly the presets whose id differs from `id`. */
    method RemovePreset(id: string)
      modifies this
      ensures presets == WithoutId(old(presets), id)
      ensures storage == Stored(presets)
    {
      Persist(WithoutId(presets, id));
    }
  }

  /** Saving a preset and removing it again leaves the list and the stored copy as the list was. */
  method SaveThenRemove(store: PresetStore, name: string, filters: FilterModel, id: string, now: int)
    requires forall i :: 0 <= i < |store.presets| ==> store.presets[i].id != id
    modifies store
    ensures store.presets == old(store.presets)
    ensures store.storage == Stored(old(store.presets))
  {
    var preset := store.SavePreset(name, filters, id, now);
    RemoveFreshRestores(old(store.presets), preset);
    store.RemovePreset(id);
  }
}
