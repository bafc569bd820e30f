/**
 * The handlers of the ad list page: which patch each control sends to the
 * filter hook and with which page rule, what saving a preset does, how the
 * search box and the price slider follow the filters, and which ids go to
 * the detail page.
 */
module AdsListPage {
  import opened Wrappers
  import opened JsBuiltins
  import opened AdsTypes
  import opened AdsFilters
  import opened SavedFilters
  import opened Navigation

  /** The price slider's range, in roubles. */
  const MinPriceBound := 0
  const MaxPriceBound := 120000

  /** A call into the filter hook. */
  datatype Call = Update(patch: Patch, preservePage: bool) | Reset

  /** The filters a call leaves in the URL; making the same call again changes nothing. */
  function Outcome(f: FilterModel, call: Call): (r: FilterModel)
    ensures call.Reset? ==> r == DefaultFilters
    ensures call.Update? ==> Merge(r, call.patch, call.preservePage) == r
  {
    match call
    case Update(patch, preservePage) => Merge(f, patch, preservePage)
    case Reset => DefaultFilters
  }

  /** The user actions on the list page that change the filters. */
  datatype Control =
    | StatusChange(statuses: seq<ModerationStatus>)
    | CategoryChange(category: Option<int>)
    | PriceAfterChange(min: int, max: int)
    | SortByChange(sortBy: SortBy)
    | SortOrderChange(sortOrder: SortOrder)
    | PageChange(page: int)
    | ApplyPreset(preset: SavedFilter)
    | ResetClick

  /**
   * Releasing the slider: a bound at the end of the range clears the
   * filter, any other value sets it.
   */
  function PricePatch(min: int, max: int): (p: Patch)
    ensures p.minPrice == Some(if min > MinPriceBound then Some(Int(min)) else None)
    ensures p.maxPrice == Some(if max < MaxPriceBound then Some(Int(max)) else None)
    ensures p.page.None? && p.status.None? && p.categoryId.None? && p.search.None?
    ensures p.sortBy.None? && p.sortOrder.None? && p.priority.None?
  {
    NoChange.(
      minPrice := Some(if min > MinPriceBound then Some(Int(min)) else None),
      maxPrice := Some(if max < MaxPriceBound then Some(Int(max)) else None))
  }

  /**
   * A stored preset as a patch: the required fields are all set, and an
   * optional field the preset has no value for is not a key of the object,
   * so the current value stays.
   */
  function PresetPatch(f: FilterModel): (p: Patch)
    ensures p.page == Some(f.page) && p.status == Some(f.status)
    ensures p.sortBy == Some(f.sortBy) && p.sortOrder == Some(f.sortOrder)
    ensures p.categoryId.Some? <==> f.categoryId.Some?
    ensures p.minPrice.Some? <==> f.minPrice.Some?
    ensures p.maxPrice.Some? <==> f.maxPrice.Some?
    ensures p.search.Some? <==> f.search.Some?
    ensures p.priority.Some? <==> f.priority.Some?
    ensures p.categoryId.Some? ==> p.categoryId.value == f.categoryId
    ensures p.minPrice.Some? ==> p.minPrice.value == f.minPrice
    ensures p.maxPrice.Some? ==> p.maxPrice.value == f.maxPrice
    ensures p.search.Some? ==> p.search.value == f.search
    ensures p.priority.Some? ==> p.priority.value == f.priority
  {
    Patch(
      Some(f.page), Some(f.status),
      if f.categoryId.Some? then Some(f.categoryId) else None,
      if f.minPrice.Some? then Some(f.minPrice) else None,
      if f.maxPrice.Some? then Some(f.maxPrice) else None,
      if f.search.Some? then Some(f.search) else None,
      Some(f.sortBy), Some(f.sortOrder),
      if f.priority.Some? then Some(f.priority) else None)
  }

  /** The call each control makes. */
  function ControlCall(c: Control): (call: Call)
    ensures c.ResetClick? <==> call.Reset?
    ensures call.Update? ==> (call.preservePage <==> c.PageChange? || c.ApplyPreset?)
  {
    match c
    case StatusChange(statuses) => Update(NoChange.(status := Some(statuses)), false)
    case CategoryChange(category) =>
      Update(NoChange.(categoryId := Some(if category.Some? then Some(Int(category.value)) else None)), false)
    case PriceAfterChange(min, max) => Update(PricePatch(min, max), false)
    case SortByChange(sortBy) => Update(NoChange.(sortBy := Some(sortBy)), false)
    case SortOrderChange(sortOrder) => Update(NoChange.(sortOrder := Some(sortOrder)), false)
    case PageChange(page) => Update(NoChange.(page := Some(Int(page))), true)
    case ApplyPreset(preset) => Update(PresetPatch(preset.filters), true)
    case ResetClick => Reset
  }

  /** The patch of the search box's commit: empty text clears the search. */
  function SearchPatch(text: string): (p: Patch)
    ensures p.search == Some(if text == "" then None else Some(text))
    ensures p == NoChange.(search := p.search)
  {
    NoChange.(search := Some(TruthyText(Some(text))))
  }

  /**
   * The commit as the debounced effect makes it: it sets the search (empty
   * text clears it), goes back to page 1 and keeps every other field.
   */
  function SearchCommitCall(text: string): (call: Call)
    ensures call.Update? && !call.preservePage
    ensures forall f :: Outcome(f, call) == f.(page := Int(1), search := TruthyText(Some(text)))
  {
    Update(SearchPatch(text), false)
  }

  /** The text the search box shows for some filters. */
  function SearchText(f: FilterModel): (s: string)
    ensures f.search.Some? ==> s == f.search.value
    ensures f.search.None? ==> s == ""
  {
    f.search.GetOr("")
  }

  /** The slider position for some filters: a missing bound sits at the end of the range. */
  function PriceRangeOf(f: FilterModel): (r: (Num, Num))
    ensures f.minPrice.None? ==> r.0 == Int(MinPriceBound)
    ensures f.minPrice.Some? ==> r.0 == f.minPrice.value
    ensures f.maxPrice.None? ==> r.1 == Int(MaxPriceBound)
    ensures f.maxPrice.Some? ==> r.1 == f.maxPrice.value
  {
    (f.minPrice.GetOr(Int(MinPriceBound)), f.maxPrice.GetOr(Int(MaxPriceBound)))
  }

  /** The ids handed to the detail page: the displayed ones, or none before data arrives. */
  function CardNeighbors(data: Option<seq<int>>): (ids: seq<int>)
    ensures data.Some? ==> ids == data.value
    ensures data.None? ==> ids == []
  {
    data.GetOr([])
  }

  /* --------------------------------------------------- control lemmas */

  /** Status, category, price and sort changes all take the list back to its first page. */
  lemma FilterChangesResetPage(f: FilterModel, c: Control)
    requires c.StatusChange? || c.CategoryChange? || c.PriceAfterChange? || c.SortByChange? || c.SortOrderChange?
    ensures Outcome(f, ControlCall(c)).page == Int(1)
  {
  }

  /** Each of those changes its own field and keeps all others but the page. */
  lemma FilterChangesKeepOthers(f: FilterModel, c: Control)
    ensures c.StatusChange? ==> Outcome(f, ControlCall(c)) == f.(page := Int(1), status := c.statuses)
    ensures c.SortByChange? ==> Outcome(f, ControlCall(c)) == f.(page := Int(1), sortBy := c.sortBy)
    ensures c.SortOrderChange? ==> Outcome(f, ControlCall(c)) == f.(page := Int(1), sortOrder := c.sortOrder)
    ensures c.CategoryChange? && c.category.None? ==> Outcome(f, ControlCall(c)) == f.(page := Int(1), categoryId := None)
    ensures c.CategoryChange? && c.category.Some? ==>
      Outcome(f, ControlCall(c)) == f.(page := Int(1), categoryId := Some(Int(c.category.value)))
  {
  }

  /** Pagination sets the chosen page and nothing else. */
  lemma PaginationSetsPage(f: FilterModel, page: int)
    ensures Outcome(f, ControlCall(PageChange(page))) == f.(page := Int(page))
  {
  }

  /**
   * Applying a preset sets its page, statuses and sorting, and an optional
   * field the preset has no value for keeps its current value.
   */
  lemma ApplyPresetOutcome(f: FilterModel, preset: SavedFilter)
    ensures
      var r := Outcome(f, ControlCall(ApplyPreset(preset)));
      var s := preset.filters;
      && r.page == s.page && r.status == s.status
      && r.sortBy == s.sortBy && r.sortOrder == s.sortOrder
      && r.categoryId == (if s.categoryId.Some? then s.categoryId else f.categoryId)
      && r.minPrice == (if s.minPrice.Some? then s.minPrice else f.minPrice)
      && r.maxPrice == (if s.maxPrice.Some? then s.maxPrice else f.maxPrice)
      && r.search == (if s.search.Some? then s.search else f.search)
      && r.priority == (if s.priority.Some? then s.priority else f.priority)
  {
  }

  /** A preset with every optional field set restores exactly the filters it stored. */
  lemma ApplyFullPreset(f: FilterModel, preset: SavedFilter)
    requires preset.filters.categoryId.Some? && preset.filters.minPrice.Some? && preset.filters.maxPrice.Some?
    requires preset.filters.search.Some? && preset.filters.priority.Some?
    ensures Outcome(f, ControlCall(ApplyPreset(preset))) == preset.filters
  {
    ApplyPresetOutcome(f, preset);
  }

  /** The reset button gives the defaults whatever the filters were. */
  lemma ResetGivesDefaults(f: FilterModel, g: FilterModel)
    ensures Outcome(f, ControlCall(ResetClick)) == DefaultFilters
    ensures Outcome(f, ControlCall(ResetClick)) == Outcome(g, ControlCall(ResetClick))
  {
  }

  /** Committing empty search text clears the search and goes to the first page. */
  lemma SearchCommitOutcome(f: FilterModel, text: string)
    ensures Outcome(f, SearchCommitCall(text)) == f.(page := Int(1), search := if text == "" then None else Some(text))
  {
  }

  /** The first category (id 0) survives the URL: 0 is a defined value, not a missing one. */
  lemma CategoryZeroKept(f: FilterModel)
    requires Representable(f)
    ensures Decode(Encode(Outcome(f, ControlCall(CategoryChange(Some(0)))))).categoryId == Some(Int(0))
  {
    var r := Outcome(f, ControlCall(CategoryChange(Some(0))));
    MergeRepresentable(f, NoChange.(categoryId := Some(Some(Int(0)))), false);
    DecodeEncode(r);
  }

  /**
   * Releasing the slider anywhere in its range and reading the filters back
   * from the URL puts the slider where it was released.
   */
  lemma SliderRoundTrip(f: FilterModel, min: int, max: int)
    requires Representable(f)
    requires MinPriceBound <= min <= max <= MaxPriceBound
    ensures PriceRangeOf(Decode(Encode(Outcome(f, ControlCall(PriceAfterChange(min, max)))))) == (Int(min), Int(max))
  {
    var r := Outcome(f, ControlCall(PriceAfterChange(min, max)));
    MergeRepresentable(f, PricePatch(min, max), false);
    DecodeEncode(r);
  }

  /**
   * A control used with the values it offers (known statuses and sort keys,
   * a page from 1, a preset the URL can hold) sends a patch the URL can hold.
   */
  lemma ControlPatchRepresentable(c: Control)
    requires c.StatusChange? ==> forall i :: 0 <= i < |c.statuses| ==> c.statuses[i].Canonical()
    requires c.SortByChange? ==> c.sortBy.Canonical() && c.sortBy.Name() != ""
    requires c.SortOrderChange? ==> c.sortOrder.Canonical() && c.sortOrder.Name() != ""
    requires c.PageChange? ==> c.page >= 1
    requires c.ApplyPreset? ==> Representable(c.preset.filters)
    ensures ControlCall(c).Update? ==> PatchRepresentable(ControlCall(c).patch)
  {
  }

  /* ----------------------------------------------- the debounced search */

  /**
   * The as-written effect re-runs whenever the filters change, because the
   * update function it depends on is rebuilt with them, and commits the
   * search box's text with the default page rule. After choosing page 3 of
   * the default list, the box shows the empty search and the commit takes
   * the list back to page 1.
   */
  lemma PageLostAfterCommit()
    ensures
      var paged := Outcome(DefaultFilters, ControlCall(PageChange(3)));
      && paged.page == Int(3)
      && Outcome(paged, SearchCommitCall(SearchText(paged))).page == Int(1)
  {
  }

  /** The same for any filters and any preset or pagination page. */
  lemma PageAlwaysLostAfterCommit(f: FilterModel, c: Control)
    requires c.PageChange? || c.ApplyPreset?
    ensures
      var moved := Outcome(f, ControlCall(c));
      Outcome(moved, SearchCommitCall(SearchText(moved))).page == Int(1)
  {
  }

  /**
   * The corrected commit: nothing is sent when the box shows the search the
   * filters already hold, so only an edited search goes back to page 1.
   */
  function DebouncedCommit(f: FilterModel, text: string): (call: Option<Call>)
    ensures call.None? <==> TruthyText(Some(text)) == f.search
    ensures call.Some? ==> call.value == SearchCommitCall(text)
  {
    if TruthyText(Some(text)) == f.search then None else Some(SearchCommitCall(text))
  }

  /** With the corrected commit, the text resynchronised from the filters never sends anything. */
  lemma ResyncedTextCommitsNothing(f: FilterModel)
    requires Representable(f)
    ensures DebouncedCommit(f, SearchText(f)).None?
  {
  }

  /** With the corrected commit, a page chosen by pagination or a preset stays. */
  lemma PageKeptWithCorrectedCommit(f: FilterModel, c: Control)
    requires Representable(f)
    requires c.PageChange? || c.ApplyPreset?
    requires c.PageChange? ==> c.page >= 1
    requires c.ApplyPreset? ==> Representable(c.preset.filters)
    ensures
      var moved := Outcome(f, ControlCall(c));
      DebouncedCommit(moved, SearchText(moved)).None?
  {
    ControlPatchRepresentable(c);
    MergeRepresentable(f, ControlCall(c).patch, true);
  }

  /** A changed search still goes to the first page, as the page rule intends. */
  lemma EditedSearchResetsPage(f: FilterModel, text: string)
    requires TruthyText(Some(text)) != f.search
    ensures DebouncedCommit(f, text).Some?
    ensures Outcome(f, DebouncedCommit(f, text).value) == f.(page := Int(1), search := TruthyText(Some(text)))
  {
  }

  /* ------------------------------------------------------ the page */

  /** The list page's own state, over the filter hook, the preset store and the session slot. */
  class ListPage {
    const filters: FilterState
    const presets: PresetStore
    const navigation: NavigationStore
    var searchValue: string
    var priceRange: (Num, Num)
    var presetName: string
    var saveModalOpen: bool

    /** The search box and the slider start at the current filters; the modal is closed and empty. */
    constructor (filters: FilterState, presets: PresetStore, navigation: NavigationStore)
      ensures this.filters == filters && this.presets == presets && this.navigation == navigation
      ensures searchValue == SearchText(filters.Filters())
      ensures priceRange == PriceRangeOf(filters.Filters())
      ensures presetName == "" && !saveModalOpen
    {
      this.filters := filters;
      this.presets := presets;
      this.navigation := navigation;
      searchValue := SearchText(filters.Filters());
      priceRange := PriceRangeOf(filters.Filters());
      presetName := "";
      saveModalOpen := false;
    }

    /** A control's call, carried out on the URL. */
    method Dispatch(c: Control)
      modifies filters
      ensures filters.query == Encode(Outcome(old(filters.Filters()), ControlCall(c)))
      ensures ControlCall(c).Update? && PatchRepresentable(ControlCall(c).patch) ==>
        filters.Filters() == Outcome(old(filters.Filters()), ControlCall(c))
      ensures ControlCall(c).Reset? ==> filters.Filters() == DefaultFilters
    {
      var call := ControlCall(c);
      match call
      case Update(patch, preservePage) =>
        filters.UpdateFilters(patch, preservePage);
      case Reset =>
        filters.ResetFilters();
    }

    /**
     * The debounced commit of the search box as the page writes it: it
     * always calls `updateFilters` with the current text and no
     * `preservePage`, so the page goes back to 1 even when the text has
     * not changed.
     */
    method CommitSearchAsWritten()
      modifies filters
      ensures filters.query == Encode(Outcome(old(filters.Filters()), SearchCommitCall(searchValue)))
      ensures filters.Filters().page == Int(1)
    {
      var call := SearchCommitCall(searchValue);
      filters.UpdateFilters(call.patch, call.preservePage);
    }

    /** The corrected debounced commit of the search box. */
    method CommitSearch()
      modifies filters
      ensures
        var call := DebouncedCommit(old(filters.Filters()), searchValue);
        && (call.None? ==> filters.query == old(filters.query))
        && (call.Some? ==> filters.query == Encode(Outcome(old(filters.Filters()), call.value)))
    {
      var call := DebouncedCommit(filters.Filters(), searchValue);
      if call.Some? {
        filters.UpdateFilters(call.value.patch, call.value.preservePage);
      }
    }

    /**
     * The effect that makes the search box follow the filters. It runs only
     * when `filters.search` differs from its value `prev` at the previous
     * render (compared as `Object.is` does), so an uncommitted edit
     * survives a change to any other filter.
     */
    method ResyncSearch(prev: FilterModel)
      modifies this
      ensures filters.Filters().search != prev.search ==> searchValue == SearchText(filters.Filters())
      ensures filters.Filters().search == prev.search ==> searchValue == old(searchValue)
      ensures priceRange == old(priceRange)
      ensures presetName == old(presetName) && saveModalOpen == old(saveModalOpen)
    {
      var current := filters.Filters();
      if current.search != prev.search {
        searchValue := SearchText(current);
      }
    }

    /**
     * The effect that makes the slider follow the filters. It runs only
     * when `filters.minPrice` or `filters.maxPrice` differs from its value
     * in `prev`, the filters at the previous render.
     */
    method ResyncPrice(prev: FilterModel)
      modifies this
      ensures
        var current := filters.Filters();
        current.minPrice != prev.minPrice || current.maxPrice != prev.maxPrice ==>
          priceRange == PriceRangeOf(current)
      ensures
        var current := filters.Filters();
        current.minPrice == prev.minPrice && current.maxPrice == prev.maxPrice ==>
          priceRange == old(priceRange)
      ensures searchValue == old(searchValue)
      ensures presetName == old(presetName) && saveModalOpen == old(saveModalOpen)
    {
      var current := filters.Filters();
      if current.minPrice != prev.minPrice || current.maxPrice != prev.maxPrice {
        priceRange := PriceRangeOf(current);
      }
    }

    /**
     * Saving the preset named in the modal: a name that is empty once
     * trimmed saves nothing and leaves the modal as it is; otherwise the
     * trimmed name and the current filters are saved, the name is cleared
     * and the modal closed.
     */
    method SavePresetHandler(id: string, now: int)
      requires forall i :: 0 <= i < |presets.presets| ==> presets.presets[i].id != id
      modifies this, presets
      ensures Trim(old(presetName)) == "" ==>
        && presets.presets == old(presets.presets) && presets.storage == old(presets.storage)
        && presetName == old(presetName) && saveModalOpen == old(saveModalOpen)
      ensures Trim(old(presetName)) != "" ==>
        && presets.presets == old(presets.presets) + [SavedFilter(id, Trim(old(presetName)), filters.Filters(), now)]
        && presets.storage == Stored(presets.presets)
        && presetName == "" && !saveModalOpen
      ensures searchValue == old(searchValue) && priceRange == old(priceRange)
    {
      var name := Trim(presetName);
      if name == "" {
        return;
      }
      var current := filters.Filters();
      var preset := presets.SavePreset(name, current, id, now);
      assert preset == SavedFilter(id, Trim(old(presetName)), filters.Filters(), now);
      presetName := "";
      saveModalOpen := false;
    }

    /** The effect that stores the displayed ids once data has arrived. */
    method RecordDisplayed(data: Option<seq<int>>, now: int)
      modifies navigation
      ensures data.None? ==> navigation.slot == old(navigation.slot)
      ensures data.Some? && |data.value| > 0 ==> navigation.slot == Holds(NavigationSnapshot(data.value, now))
      ensures data.Some? && |data.value| == 0 ==> navigation.slot == old(navigation.slot)
    {
      if data.Some? {
        navigation.SaveNavigationSnapshot(data.value, now);
      }
    }
  }
}
