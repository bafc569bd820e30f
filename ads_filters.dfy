/**
 * The filter state of the listing queue and its two-way mapping to the
 * address bar's query: the filter record with its defaults, the encoder
 * that writes it as query pairs, the decoder that reads it back, the merge
 * rule that applies a partial update, and the object that holds the
 * current query and rewrites it on every update or reset.
 */
module AdsFilters {
  import opened Wrappers
  import opened JsBuiltins
  import opened SearchParams
  import opened AdsTypes

  datatype SortBy = ByCreatedAt | ByPrice | ByPriority | OtherSortBy(raw: string) {

    function Name(): string {
      match this
      case ByCreatedAt => "createdAt"
      case ByPrice => "price"
      case ByPriority => "priority"
      case OtherSortBy(raw) => raw
    }

    predicate Canonical() {
      OtherSortBy? ==> raw !in {"createdAt", "price", "priority"}
    }
  }

  function ParseSortBy(raw: string): (s: SortBy)
    ensures s.Name() == raw && s.Canonical()
  {
    match raw
    case "createdAt" => ByCreatedAt
    case "price" => ByPrice
    case "priority" => ByPriority
    case _ => OtherSortBy(raw)
  }

  /** Printing and parsing a sort key undo each other exactly on canonical values. */
  lemma ParseSortByName(s: SortBy)
    ensures ParseSortBy(s.Name()) == s <==> s.Canonical()
  {
  }

  datatype SortOrder = Asc | Desc | OtherSortOrder(raw: string) {

    function Name(): string {
      match this
      case Asc => "asc"
      case Desc => "desc"
      case OtherSortOrder(raw) => raw
    }

    predicate Canonical() {
      OtherSortOrder? ==> raw !in {"asc", "desc"}
    }
  }

  function ParseSortOrder(raw: string): (s: SortOrder)
    ensures s.Name() == raw && s.Canonical()
  {
    match raw
    case "asc" => Asc
    case "desc" => Desc
    case _ => OtherSortOrder(raw)
  }

  lemma ParseSortOrderName(s: SortOrder)
    ensures ParseSortOrder(s.Name()) == s <==> s.Canonical()
  {
  }

  /**
   * The filters of the listing queue. An optional field that is `None` is
   * a key the JavaScript object does not have (or holds `undefined`).
   */
  datatype FilterModel = FilterModel(
    page: Num,
    status: seq<ModerationStatus>,
    categoryId: Option<Num>,
    minPrice: Option<Num>,
    maxPrice: Option<Num>,
    search: Option<string>,
    sortBy: SortBy,
    sortOrder: SortOrder,
    priority: Option<Priority>)

  const DefaultFilters := FilterModel(Int(1), [], None, None, None, None, ByCreatedAt, Desc, None)

  /* ---------------------------------------------------------------- encode */

  function StatusNames(ss: seq<ModerationStatus>): (names: seq<string>)
    ensures |names| == |ss| && forall i :: 0 <= i < |ss| ==> names[i] == ss[i].Name()
  {
    seq(|ss|, i requires 0 <= i < |ss| => ss[i].Name())
  }

  /** One `status` pair per element, in list order. */
  function StatusEntries(ss: seq<ModerationStatus>): (q: Query)
    ensures |q| == |ss| && forall i :: 0 <= i < |ss| ==> q[i] == ("status", ss[i].Name())
  {
    seq(|ss|, i requires 0 <= i < |ss| => ("status", ss[i].Name()))
  }

  /** The pair written for a field whose text is `v`, when there is one. */
  function Entry(k: string, v: Option<string>): Query {
    if v.Some? then [(k, v.value)] else []
  }

  /** A numeric field is written whenever it is defined. */
  function NumberText(n: Option<Num>): Option<string> {
    if n.Some? then Some(NumberToString(n.value)) else None
  }

  /** A text field is written only when its text is truthy, that is non-empty. */
  function TruthyText(s: Option<string>): Option<string> {
    if s.Some? && s.value != "" then s else None
  }

  function PriorityText(p: Option<Priority>): Option<string> {
    if p.Some? then TruthyText(Some(p.value.Name())) else None
  }

  /** The three pairs that are always written, first. */
  function Head(f: FilterModel): Query {
    [("page", NumberToString(f.page)), ("sortBy", f.sortBy.Name()), ("sortOrder", f.sortOrder.Name())]
  }

  /**
   * The query pairs the filters are written as, in the order they are
   * written: the three required keys first, one pair per status, and at
   * most one pair for each of the five optional keys.
   */
  function Encode(f: FilterModel): (q: Query)
    ensures 3 + |f.status| <= |q| <= 8 + |f.status|
    ensures q[0].0 == "page" && q[1].0 == "sortBy" && q[2].0 == "sortOrder"
    ensures forall i :: 3 <= i < 3 + |f.status| ==> q[i] == ("status", f.status[i - 3].Name())
  {
    Head(f)
    + StatusEntries(f.status)
    + Entry("categoryId", NumberText(f.categoryId))
    + Entry("minPrice", NumberText(f.minPrice))
    + Entry("maxPrice", NumberText(f.maxPrice))
    + Entry("search", TruthyText(f.search))
    + Entry("priority", PriorityText(f.priority))
  }

  /**
   * Fills a fresh query step by step: `set` for the three fields that are
   * always written, one `append` per status, then `set` for each optional
   * field that is present.
   */
  method BuildSearchParams(f: FilterModel) returns (params: Query)
    ensures params == Encode(f)
  {
    params := [];
    params := SetIfPresent(params, "page", Some(NumberToString(f.page)));
    params := SetIfPresent(params, "sortBy", Some(f.sortBy.Name()));
    params := SetIfPresent(params, "sortOrder", Some(f.sortOrder.Name()));
    ghost var head := Head(f);
    assert params == head;

    if |f.status| > 0 {
      for i := 0 to |f.status|
        invariant params == head + StatusEntries(f.status[..i])
      {
        StatusEntriesSnoc(f.status, i);
        params := Append(params, "status", f.status[i].Name());
      }
      assert f.status[..|f.status|] == f.status;
    }
    assert params == head + StatusEntries(f.status);
    OptionalKeysAbsent(f);

    params := SetIfPresent(params, "categoryId", NumberText(f.categoryId));
    params := SetIfPresent(params, "minPrice", NumberText(f.minPrice));
    params := SetIfPresent(params, "maxPrice", NumberText(f.maxPrice));
    params := SetIfPresent(params, "search", TruthyText(f.search));
    params := SetIfPresent(params, "priority", PriorityText(f.priority));
  }

  lemma StatusEntriesSnoc(ss: seq<ModerationStatus>, i: nat)
    requires i < |ss|
    ensures StatusEntries(ss[..i + 1]) == StatusEntries(ss[..i]) + [("status", ss[i].Name())]
  {
  }

  /** `getAll` over the status pairs: the status names in order, under `status` only. */
  lemma {:induction false} GetAllStatusEntries(ss: seq<ModerationStatus>, k: string)
    ensures GetAll(StatusEntries(ss), k) == if k == "status" then StatusNames(ss) else []
  {
    if ss != [] {
      assert StatusEntries(ss)[1..] == StatusEntries(ss[1..]);
      GetAllStatusEntries(ss[1..], k);
      assert StatusNames(ss) == [ss[0].Name()] + StatusNames(ss[1..]);
    }
  }

  lemma GetAllEntry(k': string, v: Option<string>, k: string)
    ensures GetAll(Entry(k', v), k) == if k == k' && v.Some? then [v.value] else []
  {
  }

  lemma GetAllHead(f: FilterModel, k: string)
    ensures GetAll(Head(f), k) == if k == "page" then [NumberToString(f.page)]
                                  else if k == "sortBy" then [f.sortBy.Name()]
                                  else if k == "sortOrder" then [f.sortOrder.Name()]
                                  else []
  {
    var page, sortBy, sortOrder := Some(NumberToString(f.page)), Some(f.sortBy.Name()), Some(f.sortOrder.Name());
    assert Head(f) == Entry("page", page) + Entry("sortBy", sortBy) + Entry("sortOrder", sortOrder);
    GetAllConcat(Entry("page", page) + Entry("sortBy", sortBy), Entry("sortOrder", sortOrder), k);
    GetAllConcat(Entry("page", page), Entry("sortBy", sortBy), k);
    GetAllEntry("page", page, k);
    GetAllEntry("sortBy", sortBy, k);
    GetAllEntry("sortOrder", sortOrder, k);
  }

  /** What is written before the optional fields holds none of their keys. */
  lemma HeadAndStatusLackOptionalKeys(f: FilterModel, k: string)
    requires k in ["categoryId", "minPrice", "maxPrice", "search", "priority"]
    ensures GetAll(Head(f) + StatusEntries(f.status), k) == []
  {
    GetAllHeadStatus(f, k);
  }

  /** An entry written under another key leaves `getAll(k)` as it was. */
  lemma GetAllAfterEntry(q: Query, k': string, v: Option<string>, k: string)
    requires k != k'
    ensures GetAll(q + Entry(k', v), k) == GetAll(q, k)
  {
    GetAllConcat(q, Entry(k', v), k);
    GetAllEntry(k', v, k);
  }

  /**
   * Each optional key is absent from what is written before it, so its
   * `set` appends.
   */
  lemma OptionalKeysAbsent(f: FilterModel)
    ensures var p0 := Head(f) + StatusEntries(f.status);
            var p1 := p0 + Entry("categoryId", NumberText(f.categoryId));
            var p2 := p1 + Entry("minPrice", NumberText(f.minPrice));
            var p3 := p2 + Entry("maxPrice", NumberText(f.maxPrice));
            var p4 := p3 + Entry("search", TruthyText(f.search));
            && GetAll(p0, "categoryId") == [] && GetAll(p1, "minPrice") == [] && GetAll(p2, "maxPrice") == []
            && GetAll(p3, "search") == [] && GetAll(p4, "priority") == []
  {
    var p0 := Head(f) + StatusEntries(f.status);
    var p1 := p0 + Entry("categoryId", NumberText(f.categoryId));
    var p2 := p1 + Entry("minPrice", NumberText(f.minPrice));
    var p3 := p2 + Entry("maxPrice", NumberText(f.maxPrice));
    HeadAndStatusLackOptionalKeys(f, "categoryId");
    HeadAndStatusLackOptionalKeys(f, "minPrice");
    GetAllAfterEntry(p0, "categoryId", NumberText(f.categoryId), "minPrice");
    HeadAndStatusLackOptionalKeys(f, "maxPrice");
    GetAllAfterEntry(p0, "categoryId", NumberText(f.categoryId), "maxPrice");
    GetAllAfterEntry(p1, "minPrice", NumberText(f.minPrice), "maxPrice");
    HeadAndStatusLackOptionalKeys(f, "search");
    GetAllAfterEntry(p0, "categoryId", NumberText(f.categoryId), "search");
    GetAllAfterEntry(p1, "minPrice", NumberText(f.minPrice), "search");
    GetAllAfterEntry(p2, "maxPrice", NumberText(f.maxPrice), "search");
    HeadAndStatusLackOptionalKeys(f, "priority");
    GetAllAfterEntry(p0, "categoryId", NumberText(f.categoryId), "priority");
    GetAllAfterEntry(p1, "minPrice", NumberText(f.minPrice), "priority");
    GetAllAfterEntry(p2, "maxPrice", NumberText(f.maxPrice), "priority");
    GetAllAfterEntry(p3, "search", TruthyText(f.search), "priority");
  }

  /**
   * `if (v) params.set(k, v)` on a query that does not hold `k`: the pair,
   * when written, goes at the end.
   */
  function SetIfPresent(q: Query, k: string, v: Option<string>): (r: Query)
    requires GetAll(q, k) == []
    ensures r == q + Entry(k, v)
  {
    if v.Some? then Set(q, k, v.value) else q
  }

  /* ---------------------------------------------------------------- decode */

  /** `Number(get('page')) || 1`; a missing key reads as `Number(null)`, which is 0. */
  function DecodePage(v: Option<string>): (page: Num)
    ensures page.Truthy()
  {
    var n := if v.Some? then StringToNumber(v.value) else Int(0);
    if n.Truthy() then n else Int(1)
  }

  /** A numeric key that is present becomes `Number(value)`, even when that is NaN. */
  function DecodeNumber(v: Option<string>): Option<Num> {
    if v.Some? then Some(StringToNumber(v.value)) else None
  }

  /** `(get('sortBy') as SortBy) || 'createdAt'`: any non-empty text is taken as it is. */
  function DecodeSortBy(v: Option<string>): SortBy {
    if v.Some? && v.value != "" then ParseSortBy(v.value) else DefaultFilters.sortBy
  }

  function DecodeSortOrder(v: Option<string>): SortOrder {
    if v.Some? && v.value != "" then ParseSortOrder(v.value) else DefaultFilters.sortOrder
  }

  function DecodePriority(v: Option<string>): Option<Priority> {
    if v.Some? && v.value != "" then Some(ParsePriority(v.value)) else None
  }

  /** `getAll('status') as ModerationStatus[]`, one status per value. */
  function DecodeStatuses(vs: seq<string>): (ss: seq<ModerationStatus>)
    ensures StatusNames(ss) == vs
    ensures forall i :: 0 <= i < |ss| ==> ss[i].Canonical()
  {
    seq(|vs|, i requires 0 <= i < |vs| => ParseStatus(vs[i]))
  }

  /** The filters a query stands for; every field falls back to its default. */
  function Decode(q: Query): (f: FilterModel)
    ensures f.page.Truthy()
    ensures StatusNames(f.status) == GetAll(q, "status")
    ensures f.search != Some("")
  {
    FilterModel(
      DecodePage(Get(q, "page")),
      DecodeStatuses(GetAll(q, "status")),
      DecodeNumber(Get(q, "categoryId")),
      DecodeNumber(Get(q, "minPrice")),
      DecodeNumber(Get(q, "maxPrice")),
      TruthyText(Get(q, "search")),
      DecodeSortBy(Get(q, "sortBy")),
      DecodeSortOrder(Get(q, "sortOrder")),
      DecodePriority(Get(q, "priority")))
  }

  /**
   * The filters a query can hold unchanged: a truthy integral page, enum
   * values held by their own constructor whenever their name is a known
   * one, no empty search, and no empty sort or priority name.
   */
  predicate Representable(f: FilterModel) {
    && f.page.Truthy()
    && (forall i :: 0 <= i < |f.status| ==> f.status[i].Canonical())
    && f.search != Some("")
    && f.sortBy.Canonical() && f.sortBy.Name() != ""
    && f.sortOrder.Canonical() && f.sortOrder.Name() != ""
    && (f.priority.Some? ==> f.priority.value.Canonical() && f.priority.value.Name() != "")
  }

  /* ------------------------------------------------- encode/decode lemmas */

  function Values(v: Option<string>): seq<string> {
    if v.Some? then [v.value] else []
  }

  /**
   * `getAll` on an encoded filter: one value for each of `page`, `sortBy`
   * and `sortOrder`, the status names in list order, one value for each
   * defined numeric field, one for a non-empty search or priority, and
   * nothing under any other key.
   */
  lemma GetAllEncode(f: FilterModel, k: string)
    ensures GetAll(Encode(f), k) ==
      if k == "page" then [NumberToString(f.page)]
      else if k == "sortBy" then [f.sortBy.Name()]
      else if k == "sortOrder" then [f.sortOrder.Name()]
      else if k == "status" then StatusNames(f.status)
      else if k == "categoryId" then Values(NumberText(f.categoryId))
      else if k == "minPrice" then Values(NumberText(f.minPrice))
      else if k == "maxPrice" then Values(NumberText(f.maxPrice))
      else if k == "search" then Values(TruthyText(f.search))
      else if k == "priority" then Values(PriorityText(f.priority))
      else []
  {
    var p0 := Head(f) + StatusEntries(f.status);
    var p1 := p0 + Entry("categoryId", NumberText(f.categoryId));
    var p2 := p1 + Entry("minPrice", NumberText(f.minPrice));
    var p3 := p2 + Entry("maxPrice", NumberText(f.maxPrice));
    var p4 := p3 + Entry("search", TruthyText(f.search));
    GetAllHeadStatus(f, k);
    GetAllConcat(p0, Entry("categoryId", NumberText(f.categoryId)), k);
    GetAllEntry("categoryId", NumberText(f.categoryId), k);
    GetAllConcat(p1, Entry("minPrice", NumberText(f.minPrice)), k);
    GetAllEntry("minPrice", NumberText(f.minPrice), k);
    GetAllConcat(p2, Entry("maxPrice", NumberText(f.maxPrice)), k);
    GetAllEntry("maxPrice", NumberText(f.maxPrice), k);
    GetAllConcat(p3, Entry("search", TruthyText(f.search)), k);
    GetAllEntry("search", TruthyText(f.search), k);
    GetAllConcat(p4, Entry("priority", PriorityText(f.priority)), k);
    GetAllEntry("priority", PriorityText(f.priority), k);
  }

  /** `getAll` on the part of an encoded filter before the optional keys. */
  lemma GetAllHeadStatus(f: FilterModel, k: string)
    ensures GetAll(Head(f) + StatusEntries(f.status), k) ==
      if k == "page" then [NumberToString(f.page)]
      else if k == "sortBy" then [f.sortBy.Name()]
      else if k == "sortOrder" then [f.sortOrder.Name()]
      else if k == "status" then StatusNames(f.status)
      else []
  {
    GetAllConcat(Head(f), StatusEntries(f.status), k);
    GetAllHead(f, k);
    GetAllStatusEntries(f.status, k);
  }

  /** `get` on an encoded filter, for a key written at most once. */
  lemma GetEncode(f: FilterModel, k: string)
    requires k != "status"
    ensures Get(Encode(f), k) ==
      if k == "page" then Some(NumberToString(f.page))
      else if k == "sortBy" then Some(f.sortBy.Name())
      else if k == "sortOrder" then Some(f.sortOrder.Name())
      else if k == "categoryId" then NumberText(f.categoryId)
      else if k == "minPrice" then NumberText(f.minPrice)
      else if k == "maxPrice" then NumberText(f.maxPrice)
      else if k == "search" then TruthyText(f.search)
      else if k == "priority" then PriorityText(f.priority)
      else None
  {
    GetAllEncode(f, k);
    GetIsFirstOfGetAll(Encode(f), k);
  }

  lemma DecodeNumberText(n: Option<Num>)
    ensures DecodeNumber(NumberText(n)) == n
  {
    if n.Some? {
      NumberRoundTrip(n.value);
    }
  }

  lemma DecodeStatusNames(ss: seq<ModerationStatus>)
    requires forall i :: 0 <= i < |ss| ==> ss[i].Canonical()
    ensures DecodeStatuses(StatusNames(ss)) == ss
  {
    var rs := DecodeStatuses(StatusNames(ss));
    forall i | 0 <= i < |ss| ensures rs[i] == ss[i] {
      ParseStatusName(ss[i]);
    }
  }

  lemma DecodeEncodeRequired(f: FilterModel)
    requires Representable(f)
    ensures var g := Decode(Encode(f));
            g.page == f.page && g.status == f.status && g.sortBy == f.sortBy && g.sortOrder == f.sortOrder
  {
    GetEncode(f, "page");
    NumberRoundTrip(f.page);
    GetAllEncode(f, "status");
    DecodeStatusNames(f.status);
    GetEncode(f, "sortBy");
    GetEncode(f, "sortOrder");
  }

  lemma DecodeEncodeOptional(f: FilterModel)
    requires Representable(f)
    ensures var g := Decode(Encode(f));
            && g.categoryId == f.categoryId && g.minPrice == f.minPrice && g.maxPrice == f.maxPrice
            && g.search == f.search && g.priority == f.priority
  {
    GetEncode(f, "categoryId");
    DecodeNumberText(f.categoryId);
    GetEncode(f, "minPrice");
    DecodeNumberText(f.minPrice);
    GetEncode(f, "maxPrice");
    DecodeNumberText(f.maxPrice);
    GetEncode(f, "search");
    GetEncode(f, "priority");
    if f.priority.Some? {
      ParsePriorityName(f.priority.value);
    }
  }

  /** Decoding what was encoded gives back every representable filter. */
  lemma DecodeEncode(f: FilterModel)
    requires Representable(f)
    ensures Decode(Encode(f)) == f
  {
    DecodeEncodeRequired(f);
    DecodeEncodeOptional(f);
  }

  /** Every query decodes to a representable filter, so decoding never fails. */
  lemma DecodeRepresentable(q: Query)
    ensures Representable(Decode(q))
  {
  }

  /** Re-encoding decoded filters and decoding again changes nothing. */
  lemma DecodeEncodeDecode(q: Query)
    ensures Decode(Encode(Decode(q))) == Decode(q)
  {
    DecodeRepresentable(q);
    DecodeEncode(Decode(q));
  }

  /**
   * Missing keys read as the defaults (`page` 1, no status, sorting by
   * creation date, newest first, no optional field), and a `page` that is
   * missing, zero or not a number reads as 1.
   */
  lemma DecodeDefaults(q: Query)
    ensures GetAll(q, "status") == [] ==> Decode(q).status == []
    ensures GetAll(q, "sortBy") == [] ==> Decode(q).sortBy == ByCreatedAt
    ensures GetAll(q, "sortOrder") == [] ==> Decode(q).sortOrder == Desc
    ensures GetAll(q, "categoryId") == [] ==> Decode(q).categoryId.None?
    ensures GetAll(q, "minPrice") == [] ==> Decode(q).minPrice.None?
    ensures GetAll(q, "maxPrice") == [] ==> Decode(q).maxPrice.None?
    ensures GetAll(q, "search") == [] ==> Decode(q).search.None?
    ensures GetAll(q, "priority") == [] ==> Decode(q).priority.None?
    ensures GetAll(q, "page") == [] ==> Decode(q).page == Int(1)
    ensures GetAll(q, "page") != [] && !StringToNumber(GetAll(q, "page")[0]).Truthy() ==> Decode(q).page == Int(1)
    ensures GetAll(q, "page") != [] && StringToNumber(GetAll(q, "page")[0]).Truthy() ==>
              Decode(q).page == StringToNumber(GetAll(q, "page")[0])
  {
    GetIsFirstOfGetAll(q, "page");
    GetIsFirstOfGetAll(q, "sortBy");
    GetIsFirstOfGetAll(q, "sortOrder");
    GetIsFirstOfGetAll(q, "categoryId");
    GetIsFirstOfGetAll(q, "minPrice");
    GetIsFirstOfGetAll(q, "maxPrice");
    GetIsFirstOfGetAll(q, "search");
    GetIsFirstOfGetAll(q, "priority");
  }

  /** The empty query stands for the default filters. */
  lemma DecodeEmpty()
    ensures Decode([]) == DefaultFilters
  {
  }

  /**
   * A numeric key that is present is never dropped: its first value is read
   * with `Number`, and text that is not a numeral gives NaN.
   */
  lemma DecodeKeepsPresentNumbers(q: Query)
    ensures GetAll(q, "categoryId") != [] ==> Decode(q).categoryId == Some(StringToNumber(GetAll(q, "categoryId")[0]))
    ensures GetAll(q, "minPrice") != [] ==> Decode(q).minPrice == Some(StringToNumber(GetAll(q, "minPrice")[0]))
    ensures GetAll(q, "maxPrice") != [] ==> Decode(q).maxPrice == Some(StringToNumber(GetAll(q, "maxPrice")[0]))
  {
    GetIsFirstOfGetAll(q, "categoryId");
    GetIsFirstOfGetAll(q, "minPrice");
    GetIsFirstOfGetAll(q, "maxPrice");
  }

  /** A negative page is read as it is. */
  lemma DecodeNegativePage()
    ensures Decode([("page", "-3")]).page == Int(-3)
  {
  }

  /**
   * A present, non-empty `sortBy`, `sortOrder` or `priority` is cast, not
   * checked: the decoded value carries the query's first value as its
   * name, known or not.
   */
  lemma DecodeKeepsPresentNames(q: Query)
    ensures GetAll(q, "sortBy") != [] && GetAll(q, "sortBy")[0] != "" ==>
      Decode(q).sortBy.Name() == GetAll(q, "sortBy")[0] && Decode(q).sortBy.Canonical()
    ensures GetAll(q, "sortOrder") != [] && GetAll(q, "sortOrder")[0] != "" ==>
      Decode(q).sortOrder.Name() == GetAll(q, "sortOrder")[0] && Decode(q).sortOrder.Canonical()
    ensures GetAll(q, "priority") != [] && GetAll(q, "priority")[0] != "" ==>
      Decode(q).priority.Some? && Decode(q).priority.value.Name() == GetAll(q, "priority")[0]
      && Decode(q).priority.value.Canonical()
  {
    GetIsFirstOfGetAll(q, "sortBy");
    GetIsFirstOfGetAll(q, "sortOrder");
    GetIsFirstOfGetAll(q, "priority");
  }

  /** An empty first `sortBy`, `sortOrder` or `priority` value falls back to the default. */
  lemma DecodeEmptyNames(q: Query)
    ensures GetAll(q, "sortBy") != [] && GetAll(q, "sortBy")[0] == "" ==>
      Decode(q).sortBy == DefaultFilters.sortBy
    ensures GetAll(q, "sortOrder") != [] && GetAll(q, "sortOrder")[0] == "" ==>
      Decode(q).sortOrder == DefaultFilters.sortOrder
    ensures GetAll(q, "priority") != [] && GetAll(q, "priority")[0] == "" ==>
      Decode(q).priority.None?
  {
    GetIsFirstOfGetAll(q, "sortBy");
    GetIsFirstOfGetAll(q, "sortOrder");
    GetIsFirstOfGetAll(q, "priority");
  }

  /** A present `search` decodes to its first value, unless that value is empty. */
  lemma DecodeKeepsPresentSearch(q: Query)
    ensures GetAll(q, "search") != [] ==> Decode(q).search == TruthyText(Some(GetAll(q, "search")[0]))
  {
    GetIsFirstOfGetAll(q, "search");
  }

  /** An unknown sort key is cast, not rejected. */
  lemma DecodeUnknownSortBy(q: Query)
    requires GetAll(q, "sortBy") != [] && GetAll(q, "sortBy")[0] == "title"
    ensures Decode(q).sortBy == OtherSortBy("title")
  {
    DecodeKeepsPresentNames(q);
  }

  /** A price that is not a numeral reads as NaN, not as absent. */
  lemma DecodeMalformedPrice()
    ensures Decode([("minPrice", "abc")]).minPrice == Some(NaN)
  {
  }

  /** A range whose minimum exceeds its maximum is read as it is. */
  lemma DecodeInvertedRange(lo: int, hi: int)
    requires hi < lo
    ensures
      var q := [("minPrice", NumberToString(Int(lo))), ("maxPrice", NumberToString(Int(hi)))];
      Decode(q).minPrice == Some(Int(lo)) && Decode(q).maxPrice == Some(Int(hi))
  {
    var q: Query := [("minPrice", NumberToString(Int(lo))), ("maxPrice", NumberToString(Int(hi)))];
    assert GetAll(q, "minPrice") == [NumberToString(Int(lo))] by { assert q[1..][1..] == []; }
    assert GetAll(q, "maxPrice") == [NumberToString(Int(hi))] by { assert q[1..][1..] == []; }
    DecodeKeepsPresentNumbers(q);
    NumberRoundTrip(Int(lo));
    NumberRoundTrip(Int(hi));
  }

  /**
   * The encoded query starts with `page`, `sortBy` and `sortOrder`, in that
   * order, and never holds an empty `search`.
   */
  lemma EncodeLayout(f: FilterModel)
    ensures |Encode(f)| >= 3
    ensures Encode(f)[0] == ("page", NumberToString(f.page))
    ensures Encode(f)[1] == ("sortBy", f.sortBy.Name())
    ensures Encode(f)[2] == ("sortOrder", f.sortOrder.Name())
    ensures forall i :: 0 <= i < |Encode(f)| && Encode(f)[i].0 == "search" ==> Encode(f)[i].1 != ""
  {
    var q := Encode(f);
    forall i | 0 <= i < |q| && q[i].0 == "search" ensures q[i].1 != "" {
      InGetAll(q, i);
      GetAllEncode(f, "search");
    }
  }

  /** The value of every pair is among the values `getAll` lists for its key. */
  lemma {:induction false} InGetAll(q: Query, i: nat)
    requires i < |q|
    ensures q[i].1 in GetAll(q, q[i].0)
  {
    if i > 0 {
      InGetAll(q[1..], i - 1);
    }
  }

  /* ------------------------------------------------------------- merge */

  /**
   * A partial filter as passed to `updateFilters`. A required field is
   * either absent (`None`) or given. An optional field is absent (`None`),
   * given as `undefined` (`Some(None)`), which clears it in a spread, or
   * given a value (`Some(Some(v))`).
   */
  datatype Patch = Patch(
    page: Option<Num>,
    status: Option<seq<ModerationStatus>>,
    categoryId: Option<Option<Num>>,
    minPrice: Option<Option<Num>>,
    maxPrice: Option<Option<Num>>,
    search: Option<Option<string>>,
    sortBy: Option<SortBy>,
    sortOrder: Option<SortOrder>,
    priority: Option<Option<Priority>>)

  /** The patch with no keys at all. */
  const NoChange := Patch(None, None, None, None, None, None, None, None, None)

  /** The object spread `{ ...base, ...patch }`: every key the patch holds replaces the base's. */
  function Spread(base: FilterModel, patch: Patch): (r: FilterModel)
    ensures patch == NoChange ==> r == base
    ensures patch.page.Some? ==> r.page == patch.page.value
    ensures patch.page.None? ==> r.page == base.page
    ensures patch.status.Some? ==> r.status == patch.status.value
    ensures patch.status.None? ==> r.status == base.status
    ensures patch.categoryId.Some? ==> r.categoryId == patch.categoryId.value
    ensures patch.categoryId.None? ==> r.categoryId == base.categoryId
    ensures patch.minPrice.Some? ==> r.minPrice == patch.minPrice.value
    ensures patch.minPrice.None? ==> r.minPrice == base.minPrice
    ensures patch.maxPrice.Some? ==> r.maxPrice == patch.maxPrice.value
    ensures patch.maxPrice.None? ==> r.maxPrice == base.maxPrice
    ensures patch.search.Some? ==> r.search == patch.search.value
    ensures patch.search.None? ==> r.search == base.search
    ensures patch.sortBy.Some? ==> r.sortBy == patch.sortBy.value
    ensures patch.sortBy.None? ==> r.sortBy == base.sortBy
    ensures patch.sortOrder.Some? ==> r.sortOrder == patch.sortOrder.value
    ensures patch.sortOrder.None? ==> r.sortOrder == base.sortOrder
    ensures patch.priority.Some? ==> r.priority == patch.priority.value
    ensures patch.priority.None? ==> r.priority == base.priority
  {
    FilterModel(
      patch.page.GetOr(base.page),
      patch.status.GetOr(base.status),
      patch.categoryId.GetOr(base.categoryId),
      patch.minPrice.GetOr(base.minPrice),
      patch.maxPrice.GetOr(base.maxPrice),
      patch.search.GetOr(base.search),
      patch.sortBy.GetOr(base.sortBy),
      patch.sortOrder.GetOr(base.sortOrder),
      patch.priority.GetOr(base.priority))
  }

  /**
   * The filters `updateFilters` writes: the spread of the patch over the
   * current filters, with the page put back to the patch's page, or 1,
   * unless the page is preserved.
   */
  function Merge(base: FilterModel, patch: Patch, preservePage: bool): (r: FilterModel)
    ensures r.page == if patch.page.Some? then patch.page.value else if preservePage then base.page else Int(1)
    ensures patch.status.Some? ==> r.status == patch.status.value
    ensures patch.status.None? ==> r.status == base.status
    ensures patch.categoryId.Some? ==> r.categoryId == patch.categoryId.value
    ensures patch.categoryId.None? ==> r.categoryId == base.categoryId
    ensures patch.minPrice.Some? ==> r.minPrice == patch.minPrice.value
    ensures patch.minPrice.None? ==> r.minPrice == base.minPrice
    ensures patch.maxPrice.Some? ==> r.maxPrice == patch.maxPrice.value
    ensures patch.maxPrice.None? ==> r.maxPrice == base.maxPrice
    ensures patch.search.Some? ==> r.search == patch.search.value
    ensures patch.search.None? ==> r.search == base.search
    ensures patch.sortBy.Some? ==> r.sortBy == patch.sortBy.value
    ensures patch.sortBy.None? ==> r.sortBy == base.sortBy
    ensures patch.sortOrder.Some? ==> r.sortOrder == patch.sortOrder.value
    ensures patch.sortOrder.None? ==> r.sortOrder == base.sortOrder
    ensures patch.priority.Some? ==> r.priority == patch.priority.value
    ensures patch.priority.None? ==> r.priority == base.priority
  {
    var merged := Spread(base, patch);
    if preservePage then merged else merged.(page := patch.page.GetOr(Int(1)))
  }

  /** The values a patch holds all satisfy `Representable`'s conditions. */
  predicate PatchRepresentable(p: Patch) {
    && (p.page.Some? ==> p.page.value.Truthy())
    && (p.status.Some? ==> forall i :: 0 <= i < |p.status.value| ==> p.status.value[i].Canonical())
    && p.search != Some(Some(""))
    && (p.sortBy.Some? ==> p.sortBy.value.Canonical() && p.sortBy.value.Name() != "")
    && (p.sortOrder.Some? ==> p.sortOrder.value.Canonical() && p.sortOrder.value.Name() != "")
    && (p.priority.Some? && p.priority.value.Some? ==>
          p.priority.value.value.Canonical() && p.priority.value.value.Name() != "")
  }

  /** Merging a representable patch into representable filters stays representable. */
  lemma MergeRepresentable(base: FilterModel, patch: Patch, preservePage: bool)
    requires Representable(base) && PatchRepresentable(patch)
    ensures Representable(Merge(base, patch, preservePage))
  {
  }

  /**
   * With no keys, a page-preserving update changes nothing, and a default
   * update only puts the page back to 1.
   */
  lemma MergeNoChange(base: FilterModel)
    ensures Merge(base, NoChange, true) == base
    ensures Merge(base, NoChange, false) == base.(page := Int(1))
  {
  }

  /** Applying the same update twice is the same as applying it once. */
  lemma MergeIdempotent(base: FilterModel, patch: Patch, preservePage: bool)
    ensures Merge(Merge(base, patch, preservePage), patch, preservePage) == Merge(base, patch, preservePage)
  {
  }

  /** Without `preservePage`, the current page has no influence on the result. */
  lemma MergeIgnoresPage(base: FilterModel, page: Num, patch: Patch)
    ensures Merge(base.(page := page), patch, false) == Merge(base, patch, false)
  {
  }

  /** Two patches combined into one, a key of the second winning over the same key of the first. */
  function Then(first: Patch, second: Patch): (p: Patch)
    ensures second == NoChange ==> p == first
    ensures first == NoChange ==> p == second
  {
    Patch(
      if second.page.Some? then second.page else first.page,
      if second.status.Some? then second.status else first.status,
      if second.categoryId.Some? then second.categoryId else first.categoryId,
      if second.minPrice.Some? then second.minPrice else first.minPrice,
      if second.maxPrice.Some? then second.maxPrice else first.maxPrice,
      if second.search.Some? then second.search else first.search,
      if second.sortBy.Some? then second.sortBy else first.sortBy,
      if second.sortOrder.Some? then second.sortOrder else first.sortOrder,
      if second.priority.Some? then second.priority else first.priority)
  }

  /** Two successive page-preserving updates are one update with the combined patch. */
  lemma MergeThen(base: FilterModel, first: Patch, second: Patch)
    ensures Merge(Merge(base, first, true), second, true) == Merge(base, Then(first, second), true)
  {
  }

  /* -------------------------------------------------------- URL state */

  /** The URL query of the list page, the only state the filter hook keeps. */
  class FilterState {
    var query: Query

    constructor (initial: Query)
      ensures query == initial
    {
      query := initial;
    }

    /** The filters the current URL stands for; every URL has some. */
    function Filters(): (f: FilterModel)
      reads this
      ensures Representable(f)
    {
      DecodeRepresentable(query);
      Decode(query)
    }

    /**
     * Spreads the patch over the current filters, resets the page unless
     * it is preserved, and replaces the URL query by the encoded result.
     */
    method UpdateFilters(next: Patch, preservePage: bool)
      modifies this
      ensures query == Encode(Merge(old(Filters()), next, preservePage))
      ensures PatchRepresentable(next) ==> Filters() == Merge(old(Filters()), next, preservePage)
    {
      var merged := Spread(Filters(), next);
      if !preservePage {
        merged := merged.(page := next.page.GetOr(Int(1)));
      }
      ghost var base := Filters();
      assert merged == Merge(base, next, preservePage);
      var params := BuildSearchParams(merged);
      query := params;
      if PatchRepresentable(next) {
        MergeRepresentable(base, next, preservePage);
        DecodeEncode(merged);
      }
    }

    /** Replaces the URL query by the encoded defaults, whatever it held. */
    method ResetFilters()
      modifies this
      ensures query == Encode(DefaultFilters)
      ensures Filters() == DefaultFilters
    {
      var params := BuildSearchParams(DefaultFilters);
      query := params;
      DecodeEncode(DefaultFilters);
    }
  }
}
