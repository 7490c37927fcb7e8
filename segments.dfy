/** The requests of the segments service (analytics/segments.go): a list
    operation with twelve possible query keys, the report suites always among
    them, and a by-id operation. */
module Segments {
  import opened Text
  import opened Query

  const ListPath := "/segments"

  /** The path of the by-id operation: the id is spliced into the path, never
      into the query. */
  function ByIdPath(id: string): (path: string)
    ensures HasPrefix(path, ListPath + "/") && path[|ListPath| + 1..] == id
  {
    ListPath + "/" + id
  }

  /** The arguments of GetAll, in the order of the Go signature. */
  datatype GetAllArgs = GetAllArgs(
    rsids: string, segmentFilter: string, locale: string, name: string, tagNames: string,
    filterByPublishedSegments: string, limit: int64, page: int64, sortDirection: string,
    sortProperty: string, expansion: seq<string>, includeType: seq<string>)

  /** The 12 keys GetAll may send. */
  predicate GetAllKey(k: Key)
  {
    || k == Rsids || k == SegmentFilter || k == Locale || k == Name || k == TagNames
    || k == FilterByPublishedSegments || k == Limit || k == Page || k == SortDirection
    || k == SortProperty || k == Expansion || k == IncludeType
  }

  /** The parameters GetAll sends, inserted in the order of the Go code. */
  function GetAllParams(a: GetAllArgs): Params
  {
    PutJoined(PutJoined(PutIfNonEmpty(PutIfNonEmpty(Put(Put(PutIfNonEmpty(PutIfNonEmpty(
    PutIfNonEmpty(PutIfNonEmpty(PutIfNonEmpty(Put(
      map[],
      Rsids, a.rsids), SegmentFilter, a.segmentFilter), Locale, a.locale), Name, a.name),
      TagNames, a.tagNames), FilterByPublishedSegments, a.filterByPublishedSegments),
      Limit, FormatInt(a.limit)), Page, FormatInt(a.page)), SortDirection, a.sortDirection),
      SortProperty, a.sortProperty), Expansion, a.expansion), IncludeType, a.includeType)
  }

  /** GetAll's parameter building, one insertion at a time. */
  method BuildGetAllParams(a: GetAllArgs) returns (params: Params)
    ensures params == GetAllParams(a)
  {
    params := map[];
    params := params[Rsids := a.rsids];
    params := SetIfNonEmpty(params, SegmentFilter, a.segmentFilter);
    params := SetIfNonEmpty(params, Locale, a.locale);
    params := SetIfNonEmpty(params, Name, a.name);
    params := SetIfNonEmpty(params, TagNames, a.tagNames);
    params := SetIfNonEmpty(params, FilterByPublishedSegments, a.filterByPublishedSegments);
    params := params[Limit := FormatInt(a.limit)];
    params := params[Page := FormatInt(a.page)];
    params := SetIfNonEmpty(params, SortDirection, a.sortDirection);
    params := SetIfNonEmpty(params, SortProperty, a.sortProperty);
    params := SetJoined(params, Expansion, a.expansion);
    params := SetJoined(params, IncludeType, a.includeType);
  }

  /** The rule for each key on its own: what GetAll sends for it, if anything.
      `rsids` always; `segmentFilter`, `locale`, `name`, `tagNames`,
      `filterByPublishedSegments`, `sortDirection` and `sortProperty` only when
      non-empty; the paging numbers `limit` and `page` always; the lists
      `expansion` and `includeType` only when non-empty. */
  function GetAllSends(a: GetAllArgs, k: Key): Option<string>
  {
    if k == Rsids then Some(a.rsids)
    else if k == SegmentFilter then NonEmpty(a.segmentFilter)
    else if k == Locale then NonEmpty(a.locale)
    else if k == Name then NonEmpty(a.name)
    else if k == TagNames then NonEmpty(a.tagNames)
    else if k == FilterByPublishedSegments then NonEmpty(a.filterByPublishedSegments)
    else if k == Limit then Some(FormatInt(a.limit))
    else if k == Page then Some(FormatInt(a.page))
    else if k == SortDirection then NonEmpty(a.sortDirection)
    else if k == SortProperty then NonEmpty(a.sortProperty)
    else if k == Expansion then Joined(a.expansion)
    else if k == IncludeType then Joined(a.includeType)
    else None
  }

  lemma GetAllSendsRsids(a: GetAllArgs)
    ensures Matches(GetAllParams(a), Rsids, Some(a.rsids))
    ensures ReadString(GetAllParams(a), Rsids) == a.rsids
  {
  }

  lemma GetAllSendsSegmentFilter(a: GetAllArgs)
    ensures Matches(GetAllParams(a), SegmentFilter, NonEmpty(a.segmentFilter))
    ensures ReadString(GetAllParams(a), SegmentFilter) == a.segmentFilter
  {
  }

  lemma GetAllSendsLocale(a: GetAllArgs)
    ensures Matches(GetAllParams(a), Locale, NonEmpty(a.locale))
    ensures ReadString(GetAllParams(a), Locale) == a.locale
  {
  }

  lemma GetAllSendsName(a: GetAllArgs)
    ensures Matches(GetAllParams(a), Name, NonEmpty(a.name))
    ensures ReadString(GetAllParams(a), Name) == a.name
  {
  }

  lemma GetAllSendsTagNames(a: GetAllArgs)
    ensures Matches(GetAllParams(a), TagNames, NonEmpty(a.tagNames))
    ensures ReadString(GetAllParams(a), TagNames) == a.tagNames
  {
  }

  lemma GetAllSendsFilterByPublishedSegments(a: GetAllArgs)
    ensures Matches(GetAllParams(a), FilterByPublishedSegments, NonEmpty(a.filterByPublishedSegments))
    ensures ReadString(GetAllParams(a), FilterByPublishedSegments) == a.filterByPublishedSegments
  {
  }

  lemma GetAllSendsLimit(a: GetAllArgs)
    ensures Matches(GetAllParams(a), Limit, Some(FormatInt(a.limit)))
    ensures ReadInt(GetAllParams(a), Limit) == Some(a.limit)
  {
  }

  lemma GetAllSendsPage(a: GetAllArgs)
    ensures Matches(GetAllParams(a), Page, Some(FormatInt(a.page)))
    ensures ReadInt(GetAllParams(a), Page) == Some(a.page)
  {
  }

  lemma GetAllSendsSortDirection(a: GetAllArgs)
    ensures Matches(GetAllParams(a), SortDirection, NonEmpty(a.sortDirection))
    ensures ReadString(GetAllParams(a), SortDirection) == a.sortDirection
  {
  }

  lemma GetAllSendsSortProperty(a: GetAllArgs)
    ensures Matches(GetAllParams(a), SortProperty, NonEmpty(a.sortProperty))
    ensures ReadString(GetAllParams(a), SortProperty) == a.sortProperty
  {
  }

  lemma GetAllSendsExpansion(a: GetAllArgs)
    ensures Matches(GetAllParams(a), Expansion, Joined(a.expansion))
  {
  }

  lemma GetAllSendsIncludeType(a: GetAllArgs)
    ensures Matches(GetAllParams(a), IncludeType, Joined(a.includeType))
  {
  }

  lemma GetAllSendsNothingElse(a: GetAllArgs, k: Key)
    requires !GetAllKey(k)
    ensures k !in GetAllParams(a)
  {
  }

  /** The insertion sequence follows the per-key rules: every key is present
      exactly when its rule sends something, with that value, and no other key
      is ever present. */
  lemma GetAllParamsFollowRules(a: GetAllArgs, k: Key)
    ensures Matches(GetAllParams(a), k, GetAllSends(a, k))
  {
    if k == Rsids {
      GetAllSendsRsids(a);
    } else if k == SegmentFilter {
      GetAllSendsSegmentFilter(a);
    } else if k == Locale {
      GetAllSendsLocale(a);
    } else if k == Name {
      GetAllSendsName(a);
    } else if k == TagNames {
      GetAllSendsTagNames(a);
    } else if k == FilterByPublishedSegments {
      GetAllSendsFilterByPublishedSegments(a);
    } else if k == Limit {
      GetAllSendsLimit(a);
    } else if k == Page {
      GetAllSendsPage(a);
    } else if k == SortDirection {
      GetAllSendsSortDirection(a);
    } else if k == SortProperty {
      GetAllSendsSortProperty(a);
    } else if k == Expansion {
      GetAllSendsExpansion(a);
    } else if k == IncludeType {
      GetAllSendsIncludeType(a);
    } else {
      GetAllSendsNothingElse(a, k);
    }
  }

  /** With every optional string and list empty, GetAll sends exactly the
      keys it always sends. */
  lemma GetAllFewestKeys(a: GetAllArgs)
    requires a.segmentFilter == "" && a.locale == "" && a.name == "" && a.tagNames == "" &&
      a.filterByPublishedSegments == "" && a.sortDirection == "" && a.sortProperty == "" &&
      a.expansion == [] && a.includeType == []
    ensures GetAllParams(a).Keys == {Rsids, Limit, Page}
  {
    forall k: Key
      ensures k in GetAllParams(a) <==> k in {Rsids, Limit, Page}
    {
      GetAllParamsFollowRules(a, k);
    }
  }

  /** With every optional string and list non-empty, GetAll sends every one
      of its keys. */
  lemma GetAllMostKeys(a: GetAllArgs)
    requires a.segmentFilter != "" && a.locale != "" && a.name != "" && a.tagNames != "" &&
      a.filterByPublishedSegments != "" && a.sortDirection != "" && a.sortProperty != "" &&
      a.expansion != [] && a.includeType != []
    ensures forall k :: k in GetAllParams(a) <==> GetAllKey(k)
  {
    forall k: Key
      ensures k in GetAllParams(a) <==> GetAllKey(k)
    {
      GetAllParamsFollowRules(a, k);
    }
  }

  /** The server's reading of a GetAll query: absent strings as "", absent lists
      as empty, lists split at commas; `limit` and `page` must be present and
      well formed. */
  function DecodeGetAll(p: Params): Option<GetAllArgs>
  {
    var limit := ReadInt(p, Limit);
    var page := ReadInt(p, Page);
    if limit.Some? && page.Some? then
      Some(GetAllArgs(ReadString(p, Rsids), ReadString(p, SegmentFilter),
        ReadString(p, Locale), ReadString(p, Name), ReadString(p, TagNames),
        ReadString(p, FilterByPublishedSegments), limit.value, page.value,
        ReadString(p, SortDirection), ReadString(p, SortProperty), ReadList(p, Expansion),
        ReadList(p, IncludeType)))
    else None
  }

  /** The query loses nothing: the server reads back every argument, provided
      no list element holds a comma. */
  lemma DecodeGetAllParams(a: GetAllArgs)
    requires CommaFree(a.expansion) && CommaFree(a.includeType)
    ensures DecodeGetAll(GetAllParams(a)) == Some(a)
  {
    var p := GetAllParams(a);
    GetAllSendsRsids(a);
    GetAllSendsSegmentFilter(a);
    GetAllSendsLocale(a);
    GetAllSendsName(a);
    GetAllSendsTagNames(a);
    GetAllSendsFilterByPublishedSegments(a);
    GetAllSendsLimit(a);
    GetAllSendsPage(a);
    GetAllSendsSortDirection(a);
    GetAllSendsSortProperty(a);
    GetAllSendsExpansion(a);
    GetAllSendsIncludeType(a);
    JoinedReadsBack(p, Expansion, a.expansion);
    JoinedReadsBack(p, IncludeType, a.includeType);
  }

  /** Distinct arguments give distinct queries (lists without commas). */
  lemma GetAllParamsInjective(a: GetAllArgs, b: GetAllArgs)
    requires CommaFree(a.expansion) && CommaFree(a.includeType)
    requires CommaFree(b.expansion) && CommaFree(b.includeType)
    ensures GetAllParams(a) == GetAllParams(b) ==> a == b
  {
    DecodeGetAllParams(a);
    DecodeGetAllParams(b);
  }
}
