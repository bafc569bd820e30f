# Ad moderation console: filters, presets and neighbour navigation

A Dafny model of the client-side logic of a moderation console for classified
ads. The console lists ads awaiting moderation and opens each one in a
detail view. It has four pieces of logic:

- **Filter codec.** The list's filters (page, statuses, category, price
  range, search text, sort key and order, priority) live in the URL query.
  `buildSearchParams` writes them. The decoding `useMemo` reads them back.
  `updateFilters` spreads a patch over them, resets the page unless asked
  not to, and replaces the query. `resetFilters` writes the defaults.
- **Preset store.** Named presets live in memory and in `localStorage`.
- **Navigation continuity.** The list stores the ids it displays in
  `sessionStorage`. The detail page finds the previous and next id in that
  list, or in a list carried over from the list page.
- **List-page handlers.** Each control sends a fixed patch and page rule.
  The slider maps its position to a price range. Preset names are checked.
  The search box and slider follow the filters.

Modules:

- `Wrappers`: `Option`.
- `JsBuiltins`: the JavaScript number, truthiness and `trim` behaviour the
  code relies on.
  - `Num` is an integer or NaN.
  - `Number(text)` and `String(n)` are written out on decimal digit strings.
- `SearchParams`: `URLSearchParams` as an ordered list of name-value pairs,
  with `get`, `getAll`, `set` and `append`.
- `AdsTypes`: moderation status and priority.
  - These strings are cast without checking. Each enum therefore has a
    constructor holding any other text.
- `AdsFilters`:
  - The filter record, the patch and the defaults.
  - `BuildSearchParams`, an imperative method proved equal to the
    function `Encode`.
  - `Decode` and `Merge`.
  - The `FilterState` class, which holds the URL query.
- `SavedFilters`: the `PresetStore` class, which has two fields, the list
  and the storage slot.
- `Navigation`: the session slot, `indexOf` and neighbour lookup.
- `AdsListPage`: the calls each control makes, and the page's local state
  as the `ListPage` class.
- `AdDetailsPage`: the detail page's neighbour buttons.

Inputs that come from outside are method parameters:

- `Date.now()` and `crypto.randomUUID()` are passed in.
  - The id passed to `SavePreset` must not already be in use.
- The ids of the fetched page are passed in.
- A storage slot is a value that holds one of three things: nothing, text
  that is not JSON, or a stored value.

Two behaviours of the decoder worth knowing:

- **Numeric keys that do not parse.** A numeric key that is present is
  always set to `Number(value)`, so `minPrice=abc` decodes as NaN rather
  than as absent (`DecodeMalformedPrice`).
- **The page.** Only a page that is 0 or NaN falls back to 1; a negative
  page such as `page=-3` is decoded as it is (`DecodeNegativePage`).

## Model

| member | source | states |
|---|---|---|
| JsBuiltins.NumberToString | Frontend/src/hooks/useAdsFilters.ts:30 | `String(n)` is non-empty: digits for a non-negative integer, `-` then digits for a negative one, `NaN` for NaN |
| JsBuiltins.StringToNumber | Frontend/src/hooks/useAdsFilters.ts:69 | `Number(text)`: empty text is 0; a signed or unsigned digit run is its value; NaN exactly for every other text |
| JsBuiltins.NumberRoundTrip | Frontend/src/hooks/useAdsFilters.ts:38-40 | `Number(String(n)) == n` for every integer and for NaN, so numeric filters survive the URL |
| JsBuiltins.Trim | Frontend/src/pages/AdsListPage.tsx:124-129 | `trim` keeps a contiguous slice with only whitespace removed around it and no whitespace at its ends; the result is empty exactly when the text is all whitespace |
| JsBuiltins.TrimIdempotent | Frontend/src/pages/AdsListPage.tsx:129 | trimming a trimmed name changes nothing |
| SearchParams.GetIsFirstOfGetAll | Frontend/src/hooks/useAdsFilters.ts:67-74 | `get(k)` is the first value `getAll(k)` lists, or null when there is none |
| SearchParams.GetAll | Frontend/src/hooks/useAdsFilters.ts:74 | `getAll(k)` lists no more values than the query has pairs |
| SearchParams.GetAllValues | Frontend/src/hooks/useAdsFilters.ts:74 | a value is among `getAll(k)` exactly when the query holds the pair of `k` and that value |
| SearchParams.Get | Frontend/src/hooks/useAdsFilters.ts:67-99 | a value `get(k)` returns is the value of some pair named `k` |
| SearchParams.Append | Frontend/src/hooks/useAdsFilters.ts:35 | `append` adds one value at the end of its key's values and leaves every other key's values alone |
| SearchParams.Set | Frontend/src/hooks/useAdsFilters.ts:30-32 | after `set(k, v)` the key has exactly the value `v` and every other key is unchanged; on a query without `k` the pair goes at the end |
| SearchParams.GetAllConcat | Frontend/src/hooks/useAdsFilters.ts:74 | the values of a key in two joined queries are the values in the first followed by those in the second |
| AdsTypes.ParseStatus | Frontend/src/types/ads.ts:1 | the cast to a status keeps the text as the status's name and picks the known constructor for a known name |
| AdsTypes.ParseStatusName | Frontend/src/hooks/useAdsFilters.ts:74-77 | a status survives printing and casting exactly when it is canonical (in both directions) |
| AdsTypes.ParsePriorityName | Frontend/src/hooks/useAdsFilters.ts:99-102 | a priority survives printing and casting exactly when it is canonical |
| AdsTypes.ParsePriority | Frontend/src/hooks/useAdsFilters.ts:99-102 | the cast to a priority keeps the text as its name and picks the known constructor for a known name |
| AdsFilters.ParseSortByName | Frontend/src/hooks/useAdsFilters.ts:70 | a sort key survives printing and casting exactly when it is canonical |
| AdsFilters.ParseSortOrderName | Frontend/src/hooks/useAdsFilters.ts:71 | a sort order survives printing and casting exactly when it is canonical |
| AdsFilters.ParseSortBy | Frontend/src/hooks/useAdsFilters.ts:70 | the cast to a sort key keeps the text as its name and picks the known constructor for a known name |
| AdsFilters.ParseSortOrder | Frontend/src/hooks/useAdsFilters.ts:71 | the cast to a sort order keeps the text as its name and picks the known constructor for a known name |
| AdsFilters.Encode | Frontend/src/hooks/useAdsFilters.ts:27-59 | the encoding starts with `page`, `sortBy` and `sortOrder`, then one `status` pair per status naming it, in order, and has at most five pairs more |
| AdsFilters.BuildSearchParams | Frontend/src/hooks/useAdsFilters.ts:27-59 | filling the query with `set`, one `append` per status and `set` for each present optional field yields exactly `Encode(f)` |
| AdsFilters.GetAllEncode | Frontend/src/hooks/useAdsFilters.ts:30-56 | in the encoding, `page`, `sortBy` and `sortOrder` have one value each, `status` has the list's names in order, a numeric key has one value exactly when defined, `search` and `priority` one value exactly when truthy, any other key none |
| AdsFilters.EncodeLayout | Frontend/src/hooks/useAdsFilters.ts:30-52 | the encoding begins with `page`, `sortBy`, `sortOrder` in that order and never holds an empty `search` |
| AdsFilters.DecodePage | Frontend/src/hooks/useAdsFilters.ts:69 | `Number(get('page'))`, or 1 when that is falsy, is always a truthy number |
| AdsFilters.DecodeStatuses | Frontend/src/hooks/useAdsFilters.ts:74-77 | the decoded status list prints back to exactly the `getAll('status')` values, and its values are canonical |
| AdsFilters.Decode | Frontend/src/hooks/useAdsFilters.ts:66-105 | every query decodes to filters with a truthy page, no empty search, and statuses printing back to exactly the `getAll('status')` values |
| AdsFilters.DecodeEncode | Frontend/src/hooks/useAdsFilters.ts:27-105 | decoding the encoding of a representable filter gives it back (truthy page, canonical and non-empty enum names, no empty search) |
| AdsFilters.DecodeRepresentable | Frontend/src/hooks/useAdsFilters.ts:66-105 | every query, however malformed, decodes to a representable filter |
| AdsFilters.DecodeEncodeDecode | Frontend/src/hooks/useAdsFilters.ts:66-120 | writing back what was read changes nothing the page sees: decode ∘ encode ∘ decode = decode |
| AdsFilters.DecodeDefaults | Frontend/src/hooks/useAdsFilters.ts:67-102 | a missing key decodes to its default; a page that is missing, zero or NaN decodes to 1, and any other page to its number |
| AdsFilters.DecodeEmpty | Frontend/src/hooks/useAdsFilters.ts:20-25 | the empty query stands for the default filters |
| AdsFilters.DecodeKeepsPresentNumbers | Frontend/src/hooks/useAdsFilters.ts:79-92 | a present `categoryId`, `minPrice` or `maxPrice` is never dropped; it becomes `Number` of its first value |
| AdsFilters.DecodeNegativePage | Frontend/src/hooks/useAdsFilters.ts:69 | `page=-3` decodes to page -3 |
| AdsFilters.DecodeKeepsPresentNames | Frontend/src/hooks/useAdsFilters.ts:70-102 | a present, non-empty `sortBy`, `sortOrder` or `priority` decodes to the value named by its first query value, known name or not |
| AdsFilters.DecodeEmptyNames | Frontend/src/hooks/useAdsFilters.ts:70-102 | an empty first `sortBy`, `sortOrder` or `priority` value gives the default sort key, the default order or no priority |
| AdsFilters.DecodeKeepsPresentSearch | Frontend/src/hooks/useAdsFilters.ts:94-97 | a present `search` decodes to its first value, and to no search when that value is empty |
| AdsFilters.DecodeUnknownSortBy | Frontend/src/hooks/useAdsFilters.ts:70 | a query whose first `sortBy` is the unknown `title` decodes to that raw name, not to the default |
| AdsFilters.DecodeMalformedPrice | Frontend/src/hooks/useAdsFilters.ts:84-87 | `minPrice=abc` decodes to NaN, not to an absent bound |
| AdsFilters.DecodeInvertedRange | Frontend/src/hooks/useAdsFilters.ts:84-92 | for any minimum above any maximum, the query holding both decodes to them unchanged; the order is not enforced |
| AdsFilters.Spread | Frontend/src/hooks/useAdsFilters.ts:109-112 | every key the patch holds replaces the current value (an explicit `undefined` clears it), every key it lacks keeps it, and the empty patch changes nothing |
| AdsFilters.Merge | Frontend/src/hooks/useAdsFilters.ts:109-116 | the page is the patch's page, else the current page when preserved, else 1; for every other field a key in the patch wins (an explicit `undefined` clears it) and an absent key keeps the current value |
| AdsFilters.MergeRepresentable | Frontend/src/hooks/useAdsFilters.ts:109-116 | merging a representable patch into representable filters stays representable |
| AdsFilters.MergeNoChange | Frontend/src/hooks/useAdsFilters.ts:109-116 | an empty patch changes nothing when the page is preserved, and only sets the page to 1 otherwise |
| AdsFilters.MergeIdempotent | Frontend/src/hooks/useAdsFilters.ts:109-116 | repeating an update gives the same filters as doing it once |
| AdsFilters.MergeIgnoresPage | Frontend/src/hooks/useAdsFilters.ts:114-116 | without `preservePage` the current page has no influence on the result |
| AdsFilters.Then | Frontend/src/hooks/useAdsFilters.ts:109-112 | combining patches with later keys winning has the empty patch as identity on both sides |
| AdsFilters.MergeThen | Frontend/src/hooks/useAdsFilters.ts:109-112 | two page-preserving updates equal one update with the combined patch |
| AdsFilters.FilterState.Filters | Frontend/src/hooks/useAdsFilters.ts:66-105 | the filters the current URL stands for are always representable |
| AdsFilters.FilterState.UpdateFilters | Frontend/src/hooks/useAdsFilters.ts:107-123 | the new query is exactly `Encode(Merge(current, patch, preservePage))`, and for a representable patch the filters read back are that merge |
| AdsFilters.FilterState.ResetFilters | Frontend/src/hooks/useAdsFilters.ts:125-129 | the new query is `Encode(defaults)` whatever it held, so the filters read back are the defaults and a second reset changes nothing |
| Navigation.ReadSnapshot | Frontend/src/utils/navigation.ts:21-32 | a missing, empty or unparseable slot reads as no snapshot, never an error; a stored snapshot reads as itself |
| Navigation.IndexOf | Frontend/src/utils/navigation.ts:43 | `indexOf` is -1 exactly when the id is absent, and otherwise the first index holding it |
| Navigation.Neighbors | Frontend/src/utils/navigation.ts:39-51 | an id not in the list has no neighbours; otherwise, with `i` its first index, `prevId = ids[i-1]` exactly when `i > 0` and `nextId = ids[i+1]` exactly when `i` is not the last index |
| Navigation.NeighborsOfShortLists | Frontend/src/utils/navigation.ts:39-51 | an empty or one-element list gives both neighbours null |
| Navigation.NeighborsInverse | Frontend/src/utils/navigation.ts:43-51 | in a list without repeated ids, `y` follows `x` exactly when `x` precedes `y` |
| Navigation.NeighborsExample | Frontend/src/utils/navigation.ts:43-51 | the neighbours in `[10, 20, 30]` at each end, in the middle, for a missing id, and for a repeated id (its first occurrence) |
| Navigation.NavigationStore.GetSnapshot | Frontend/src/utils/navigation.ts:21-32 | there is a snapshot exactly when the slot holds one |
| Navigation.NavigationStore.SaveNavigationSnapshot | Frontend/src/utils/navigation.ts:8-19 | an empty list leaves the slot unchanged; any other list overwrites it with exactly those ids and the given time |
| Navigation.NavigationStore.GetNeighborIds | Frontend/src/utils/navigation.ts:34-52 | a supplied fallback list, even an empty one, is used and the slot is not consulted; without one the stored ids are used, and no snapshot means no neighbours |
| Navigation.SaveThenLookUp | Frontend/src/utils/navigation.ts:8-52 | after saving a non-empty list, a lookup without fallback answers from exactly that list |
| SavedFilters.ReadStorage | Frontend/src/hooks/useSavedFilters.ts:13-24 | a missing, empty or unparseable slot reads as no presets, never an error; a stored list reads as itself |
| SavedFilters.WithoutId | Frontend/src/hooks/useSavedFilters.ts:55 | the kept entries are exactly those whose id differs; no longer than before; unchanged when the id is absent |
| SavedFilters.WithoutIdConcat | Frontend/src/hooks/useSavedFilters.ts:55 | the filter keeps order: filtering joined lists is joining the filtered lists |
| SavedFilters.RemoveFreshRestores | Frontend/src/hooks/useSavedFilters.ts:47-55 | removing the id of a freshly appended preset gives back the list before it |
| SavedFilters.PresetStore.constructor | Frontend/src/hooks/useSavedFilters.ts:27 | the list starts empty |
| SavedFilters.PresetStore.Load | Frontend/src/hooks/useSavedFilters.ts:29-31 | the first load replaces the list by what the slot holds, or by no presets |
| SavedFilters.PresetStore.Persist | Frontend/src/hooks/useSavedFilters.ts:33-36 | afterwards the list and the stored copy both equal the given list |
| SavedFilters.PresetStore.SavePreset | Frontend/src/hooks/useSavedFilters.ts:38-51 | exactly one preset with the given name, filters, id and time is appended and returned; earlier entries stay in order; the name is not checked |
| SavedFilters.PresetStore.RemovePreset | Frontend/src/hooks/useSavedFilters.ts:53-58 | the list becomes the entries whose id differs, in order, and is stored |
| SavedFilters.SaveThenRemove | Frontend/src/hooks/useSavedFilters.ts:38-58 | saving a preset and removing it again leaves the list as it was, and stores it |
| AdsListPage.PricePatch | Frontend/src/pages/AdsListPage.tsx:103-109 | releasing the slider sets `minPrice` only when above 0 and `maxPrice` only when below 120000, clears each otherwise, and touches nothing else |
| AdsListPage.PresetPatch | Frontend/src/pages/AdsListPage.tsx:140 | a preset sets every required field, and an optional field only when the preset has a value for it, and then to that value |
| AdsListPage.ControlCall | Frontend/src/pages/AdsListPage.tsx:261-342 | only the reset button resets; only pagination and presets preserve the page |
| AdsListPage.SearchPatch | Frontend/src/pages/AdsListPage.tsx:92-97 | the commit sends only `search`, cleared for empty text |
| AdsListPage.Outcome | Frontend/src/hooks/useAdsFilters.ts:107-129 | a reset yields the default filters; an update's result is a fixed point of the same update, so sending it again changes nothing |
| AdsListPage.SearchCommitCall | Frontend/src/pages/AdsListPage.tsx:90-101 | the commit does not preserve the page; applied to any filters it sets the search (empty text clears it), puts the page back to 1 and keeps every other field |
| AdsListPage.SearchText | Frontend/src/pages/AdsListPage.tsx:79-81 | the box shows the committed search, or nothing |
| AdsListPage.PriceRangeOf | Frontend/src/pages/AdsListPage.tsx:83-88 | a missing minimum puts the slider's lower end at 0 and a missing maximum its upper end at 120000; a bound that is present is shown as it is |
| AdsListPage.CardNeighbors | Frontend/src/pages/AdsListPage.tsx:116 | the displayed ids in order, or none before data arrives |
| AdsListPage.FilterChangesResetPage | Frontend/src/pages/AdsListPage.tsx:289-339 | status, category, price and sort changes take the list to page 1 |
| AdsListPage.FilterChangesKeepOthers | Frontend/src/pages/AdsListPage.tsx:289-339 | those changes set their own field, and a cleared category becomes absent; every other field stays |
| AdsListPage.PaginationSetsPage | Frontend/src/pages/AdsListPage.tsx:261 | pagination sets the chosen page and nothing else |
| AdsListPage.ApplyPresetOutcome | Frontend/src/pages/AdsListPage.tsx:140 | a preset sets its page, statuses and sorting; an optional field it lacks keeps its current value |
| AdsListPage.ApplyFullPreset | Frontend/src/pages/AdsListPage.tsx:168 | a preset with every field set restores exactly its filters |
| AdsListPage.ResetGivesDefaults | Frontend/src/pages/AdsListPage.tsx:342 | the reset button gives the defaults, independently of the current filters |
| AdsListPage.SearchCommitOutcome | Frontend/src/pages/AdsListPage.tsx:92-97 | a commit sets the search (empty text clears it), sets page 1 and keeps the rest |
| AdsListPage.CategoryZeroKept | Frontend/src/pages/AdsListPage.tsx:299-303 | choosing category 0 survives the URL as category 0, not as no category |
| AdsListPage.SliderRoundTrip | Frontend/src/pages/AdsListPage.tsx:83-108 | releasing the slider anywhere in `[0, 120000]`, writing the URL and reading it back puts the slider where it was released |
| AdsListPage.ControlPatchRepresentable | Frontend/src/pages/AdsListPage.tsx:261-339 | every control used with the values it offers sends a patch the URL can hold |
| AdsListPage.PageLostAfterCommit | Frontend/src/pages/AdsListPage.tsx:90-101 | as written: choosing page 3 and then the re-armed commit of the unchanged search gives page 1 |
| AdsListPage.PageAlwaysLostAfterCommit | Frontend/src/pages/AdsListPage.tsx:90-101 | as written: after any pagination or preset, the re-armed commit takes the list to page 1 |
| AdsListPage.DebouncedCommit | Frontend/src/pages/AdsListPage.tsx:90-101 | corrected: a commit is sent exactly when the box's text differs from the committed search, and then it is the source's commit |
| AdsListPage.ResyncedTextCommitsNothing | Frontend/src/pages/AdsListPage.tsx:79-101 | corrected: the text resynchronised from the filters never sends a commit |
| AdsListPage.PageKeptWithCorrectedCommit | Frontend/src/pages/AdsListPage.tsx:90-101 | corrected: a page chosen by pagination or a preset stays |
| AdsListPage.EditedSearchResetsPage | Frontend/src/pages/AdsListPage.tsx:90-101 | corrected: an edited search is still committed and goes to page 1 |
| AdsListPage.ListPage.constructor | Frontend/src/pages/AdsListPage.tsx:49-55 | the box and slider start at the current filters; the modal starts closed and empty |
| AdsListPage.ListPage.Dispatch | Frontend/src/pages/AdsListPage.tsx:261-342 | a control's call writes `Encode(Outcome(current, call))` as the query |
| AdsListPage.ListPage.CommitSearchAsWritten | Frontend/src/pages/AdsListPage.tsx:90-101 | the commit as written: the query becomes the encoding of the search commit applied to the current filters, whose page is then 1 |
| AdsListPage.ListPage.CommitSearch | Frontend/src/pages/AdsListPage.tsx:90-101 | the corrected commit: the query is unchanged when nothing is sent |
| AdsListPage.ListPage.ResyncSearch | Frontend/src/pages/AdsListPage.tsx:79-81 | when the committed search changed since the previous render the box shows it (or ""), otherwise the box keeps its uncommitted text; nothing else changes |
| AdsListPage.ListPage.ResyncPrice | Frontend/src/pages/AdsListPage.tsx:83-88 | when either price bound changed since the previous render the slider shows the current bounds, otherwise it keeps its position; nothing else changes |
| AdsListPage.ListPage.SavePresetHandler | Frontend/src/pages/AdsListPage.tsx:123-133 | a name that is blank once trimmed saves nothing and leaves the modal as it is; otherwise the trimmed name and current filters are appended, the name cleared and the modal closed |
| AdsListPage.ListPage.RecordDisplayed | Frontend/src/pages/AdsListPage.tsx:73-77 | once data has arrived, a non-empty id list replaces the stored snapshot |
| AdDetailsPage.HandleNavigate | Frontend/src/pages/AdDetailsPage.tsx:99-107 | a missing neighbour and the id 0 are both ignored; any other id is followed |
| AdDetailsPage.CardClickNeighbors | Frontend/src/pages/AdDetailsPage.tsx:57 | opening the card at position `i` of a list without repeated ids offers the cards at `i-1` and `i+1`, and the next button follows unless that id is 0 |
| AdDetailsPage.NoDataNoNeighbors | Frontend/src/pages/AdDetailsPage.tsx:57 | a card opened before data arrived has no neighbours |

## Left out

- JsBuiltins.StringToNumber: `Number` is modelled on integers only.
  - Leading or trailing whitespace, fractions, exponents, hexadecimal,
    binary and octal literals and `Infinity` all read as NaN here. The real
    `Number` reads them as numbers; for example `Number("0b101")` is 5 and
    `Number("0o17")` is 15.
- JsBuiltins.NumberToString: integers of 10^21 and above print in exponent
  form in JavaScript, but here they print as plain digits.
- Non-integral numbers in the filters are not modelled. The page, ids,
  prices and category ids are unbounded integers (or NaN), with none of
  the rounding of a double.
- JsBuiltins.StringToNumber: integers of magnitude beyond 2^53 are exact
  here, while JavaScript rounds them to the nearest double; for example
  `Number("9007199254740993")` is 9007199254740992 there.
- AdsFilters.Patch: a required key (`page`, `status`, `sortBy`,
  `sortOrder`) set explicitly to `undefined` is not modelled. No control
  of the list page sends one.
- The query string's percent-encoding, `toString()` and the history entry
  written by `navigate` are left out.
  - The query is modelled as its list of decoded pairs.
  - `setSearchParams` and `navigate` are modelled as one write.
- A JSON value of the wrong shape in either storage slot is left out. For
  example, a snapshot without `ids` makes the code throw while reading
  `length`. The slots hold a value, nothing, or text that is not JSON.
- SavedFilters.PresetStore.Persist: storage access is assumed never to
  throw. In the code `setPresets(next)` runs before `localStorage.setItem`,
  so a quota or security error leaves the list in memory at `next` and the
  stored list stale. The same holds for its callers `SavePreset` and
  `RemovePreset`. In `SavePresetHandler` the error also escapes before the
  name is cleared and the modal closed. A throwing `getItem` at load is not
  modelled either.
- Navigation.NavigationStore.SaveNavigationSnapshot: `sessionStorage` access
  is assumed never to throw. A throwing `setItem` leaves the earlier
  snapshot in place and the error escapes to the caller. A throwing
  `getItem` in `getSnapshot` sits outside its `try` and is not modelled.
- JSON serialisation of presets is left out. In particular, a NaN price
  would come back as `null` after a reload.
- React scheduling is left out: asynchronous state updates, effect order,
  re-renders, and stale closures when a handler runs twice in one render.
  - The handlers are modelled as atomic steps.
  - The 500 ms debounce timer is modelled only by what its commit sends.
    That the effect re-arms after every filter change is assumed (it
    re-arms because `updateFilters` changes with the filters), not derived.
- Data fetching is left out: the query cache, page size, abort signals and
  cache invalidation. The fetched page's ids are a method parameter.
- Rendering, toasts, hotkeys, the theme, statistics and the moderation
  actions are left out. They have no logic to state.
- `Date.now()` and `crypto.randomUUID()` are parameters.
  - SavedFilters.PresetStore.SavePreset requires that the given id is not
    already in use, which a random UUID ensures in practice.

## Findings

| source | as written | input that shows it | evidently intended | confidence | as-written member | corrected member |
|---|---|---|---|---|---|---|
| Frontend/src/pages/AdsListPage.tsx:90-101 | The debounced search effect depends on `updateFilters`, which is rebuilt whenever the filters change (useAdsFilters.ts:122). Every filter change re-arms it, and 500 ms later it commits the unchanged search with the default page rule. | On the default list, choose page 3 (or apply a preset stored on page 3); the re-armed commit sends `{search: undefined}` with `preservePage: false`. | The chosen page stays until the search text is actually edited. | medium, not executed | AdsListPage.PageLostAfterCommit | AdsListPage.DebouncedCommit |
