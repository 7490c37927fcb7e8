/** The requests of the calculated-metrics service (analytics/calculatedmetrics.go):
    a list operation with fifteen possible query keys, and a by-id operation. */
module CalculatedMetrics {
  import opened Text
  import opened Query

  const ListPath := "/calculatedmetrics"

  /** The path of the by-id operation: the id is spliced into the path, never
      into the query. */
  function ByIdPath(id: string): (path: string)
    ensures HasPrefix(path, ListPath + "/") && path[|ListPath| + 1..] == id
  {
    ListPath + "/" + id
  }

  /** The arguments of GetAll, in the order of the Go signature. */
  datatype GetAllArgs = GetAllArgs(
    rsids: string, ownerId: string, filterByIds: string, toBeUsedInRsid: string,
    locale: string, name: string, tagNames: string, favorite: bool, approved: bool,
    limit: int64, page: int64, sortDirection: string, sortProperty: string,
    expansion: seq<string>, includeType: seq<string>)

  /** The 15 keys GetAll may send. */
  predicate GetAllKey(k: Key)
  {
    || k == Rsids || k == OwnerId || k == FilterByIds || k == ToBeUsedInRsid || k == Locale
    || k == Name || k == TagNames || k == Favorite || k == Approved || k == Limit
    || k == Page || k == SortDirection || k == SortProperty || k == Expansion
    || k == IncludeType
  }

  /** The parameters GetAll sends, inserted in the order of the Go code. */
  function GetAllParams(a: GetAllArgs): Params
  {
    PutJoined(PutJoined(PutIfNonEmpty(PutIfNonEmpty(Put(Put(Put(Put(PutIfNonEmpty(PutIfNonEmpty(
    PutIfNonEmpty(PutIfNonEmpty(PutIfNonEmpty(PutIfNonEmpty(PutIfNonEmpty(
      map[],
      Rsids, a.rsids), OwnerId, a.ownerId), FilterByIds, a.filterByIds),
      ToBeUsedInRsid, a.toBeUsedInRsid), Locale, a.locale), Name, a.name),
      TagNames, a.tagNames), Favorite, FormatBool(a.favorite)),
      Approved, FormatBool(a.approved)), Limit, FormatInt(a.limit)), Page, FormatInt(a.page)),
      SortDirection, a.sortDirection), SortProperty, a.sortProperty), Expansion, a.expansion),
      IncludeType, a.includeType)
  }

  /** GetAll's parameter building, one insertion at a time. */
  method BuildGetAllParams(a: GetAllArgs) returns (params: Params)
    ensures params == GetAllParams(a)
  {
    params := map[];
    params := SetIfNonEmpty(params, Rsids, a.rsids);
    params := SetIfNonEmpty(params, OwnerId, a.ownerId);
    params := SetIfNonEmpty(params, FilterByIds, a.filterByIds);
    params := SetIfNonEmpty(params, ToBeUsedInRsid, a.toBeUsedInRsid);
    params := SetIfNonEmpty(params, Locale, a.locale);
    params := SetIfNonEmpty(params, Name, a.name);
    params := SetIfNonEmpty(params, TagNames, a.tagNames);
    params := params[Favorite := FormatBool(a.favorite)];
    params := params[Approved := FormatBool(a.approved)];
    params := params[Limit := FormatInt(a.limit)];
    params := params[Page := FormatInt(a.page)];
    params := SetIfNonEmpty(params, SortDirection, a.sortDirection);
    params := SetIfNonEmpty(params, SortProperty, a.sortProperty);
    params := SetJoined(params, Expansion, a.expansion);
    params := SetJoined(params, IncludeType, a.includeType);
  }

  /** The rule for each key on its own: what GetAll sends for it, if anything.
      `rsids`, `ownerId`, `filterByIds`, `toBeUsedInRsid`, `locale`, `name`,
      `tagNames`, `sortDirection` and `sortProperty` only when non-empty; the
      flags `favorite` and `approved` always; the paging numbers `limit` and
      `page` always; the lists `expansion` and `includeType` only when
      non-empty. */
  function GetAllSends(a: GetAllArgs, k: Key): Option<string>
  {
    if k == Rsids then NonEmpty(a.rsids)
    else if k == OwnerId then NonEmpty(a.ownerId)
    else if k == FilterByIds then NonEmpty(a.filterByIds)
    else if k == ToBeUsedInRsid then NonEmpty(a.toBeUsedInRsid)
    else if k == Locale then NonEmpty(a.locale)
    else if k == Name then NonEmpty(a.name)
    else if k == TagNames then NonEmpty(a.tagNames)
    else if k == Favorite then Some(FormatBool(a.favorite))
    else if k == Approved then Some(FormatBool(a.approved))
    else if k == Limit then Some(FormatInt(a.limit))
    else if k == Page then Some(FormatInt(a.page))
    else if k == SortDirection then NonEmpty(a.sortDirection)
    else if k == SortProperty then NonEmpty(a.sortProperty)
    else if k == Expansion then Joined(a.expansion)
    else if k == IncludeType then Joined(a.includeType)
    else None
  }

  lemma GetAllSendsRsids(a: GetAllArgs)
    ensures Matches(GetAllParams(a), Rsids, NonEmpty(a.rsids))
    ensures ReadString(GetAllParams(a), Rsids) == a.rsids
  {
  }

  lemma GetAllSendsOwnerId(a: GetAllArgs)
    ensures Matches(GetAllParams(a), OwnerId, NonEmpty(a.ownerId))
    ensures ReadString(GetAllParams(a), OwnerId) == a.ownerId
  {
  }

  lemma GetAllSendsFilterByIds(a: GetAllArgs)
    ensures Matches(GetAllParams(a), FilterByIds, NonEmpty(a.filterByIds))
    ensures ReadString(GetAllParams(a), FilterByIds) == a.filterByIds
  {
  }

  lemma GetAllSendsToBeUsedInRsid(a: GetAllArgs)
    ensures Matches(GetAllParams(a), ToBeUsedInRsid, NonEmpty(a.toBeUsedInRsid))
    ensures ReadString(GetAllParams(a), ToBeUsedInRsid) == a.toBeUsedInRsid
  {
  }

  lemma GetAllSendsLocale(a: GetAllArgs)
    ensures Matches(GetAllParams(a), Locale, NonEmpty(a.locale))
    ensures ReadString(GetAllParams(a), Locale) == a.locale
  {
  }

  lemma GetAllSendsName(a: GetAllArgs)
    ensures Matches(GetAllParams(a), Name, NonEmpty(a.name))
    ensures ReadString(GetAllParams(a), Name) == a.name
  {
  }

  lemma GetAllSendsTagNames(a: GetAllArgs)
    ensures Matches(GetAllParams(a), TagNames, NonEmpty(a.tagNames))
    ensures ReadString(GetAllParams(a), TagNames) == a.tagNames
  {
  }

  lemma GetAllSendsFavorite(a: GetAllArgs)
    ensures Matches(GetAllParams(a), Favorite, Some(FormatBool(a.favorite)))
    ensures ReadBool(GetAllParams(a), Favorite) == Some(a.favorite)
  {
  }

  lemma GetAllSendsApproved(a: GetAllArgs)
    ensures Matches(GetAllParams(a), Approved, Some(FormatBool(a.approved)))
    ensures ReadBool(GetAllParams(a), Approved) == Some(a.approved)
  {
  }

  lemma GetAllSendsLimit(a: GetAllArgs)
    ensures Matches(GetAllParams(a), Limit, Some(FormatInt(a.limit)))
    ensures ReadInt(GetAllParams(a), Limit) == Some(a.limit)
  {
  }

  lemma GetAllSendsPage(a: GetAllArgs)
    ensures Matches(GetAllParams(a), Page, Some(FormatInt(a.page)))
    ensures ReadInt(GetAllParams(a), Page) == Some(a.page)
  {
  }

  lemma GetAllSendsSortDirection(a: GetAllArgs)
    ensures Matches(GetAllParams(a), SortDirection, NonEmpty(a.sortDirection))
    ensures ReadString(GetAllParams(a), SortDirection) == a.sortDirection
  {
  }

  lemma GetAllSendsSortProperty(a: GetAllArgs)
    ensures Matches(GetAllParams(a), SortProperty, NonEmpty(a.sortProperty))
    ensures ReadString(GetAllParams(a), SortProperty) == a.sortProperty
  {
  }

  lemma GetAllSendsExpansion(a: GetAllArgs)
    ensures Matches(GetAllParams(a), Expansion, Joined(a.expansion))
  {
  }

  lemma GetAllSendsIncludeType(a: GetAllArgs)
    ensures Matches(GetAllParams(a), IncludeType, Joined(a.includeType))
  {
  }

  lemma GetAllSendsNothingElse(a: GetAllArgs, k: Key)
    requires !GetAllKey(k)
    ensures k !in GetAllParams(a)
  {
  }

  /** The insertion sequence follows the per-key rules: every key is present
      exactly when its rule sends something, with that value, and no other key
      is ever present. */
  lemma GetAllParamsFollowRules(a: GetAllArgs, k: Key)
    ensures Matches(GetAllParams(a), k, GetAllSends(a, k))
  {
    if k == Rsids {
      GetAllSendsRsids(a);
    } else if k == OwnerId {
      GetAllSendsOwnerId(a);
    } else if k == FilterByIds {
      GetAllSendsFilterByIds(a);
    } else if k == ToBeUsedInRsid {
      GetAllSendsToBeUsedInRsid(a);
    } else if k == Locale {
      GetAllSendsLocale(a);
    } else if k == Name {
      GetAllSendsName(a);
    } else if k == TagNames {
      GetAllSendsTagNames(a);
    } else if k == Favorite {
      GetAllSendsFavorite(a);
    } else if k == Approved {
      GetAllSendsApproved(a);
    } else if k == Limit {
      GetAllSendsLimit(a);
    } else if k == Page {
      GetAllSendsPage(a);
    } else if k == SortDirection {
      GetAllSendsSortDirection(a);
    } else if k == SortProperty {
      GetAllSendsSortProperty(a);
    } else if k == Expansion {
      GetAllSendsExpansion(a);
    } else if k == IncludeType {
      GetAllSendsIncludeType(a);
    } else {
      GetAllSendsNothingElse(a, k);
    }
  }

  /** With every optional string and list empty, GetAll sends exactly the
      keys it always sends. */
  lemma GetAllFewestKeys(a: GetAllArgs)
    requires a.rsids == "" && a.ownerId == "" && a.filterByIds == "" &&
      a.toBeUsedInRsid == "" && a.locale == "" && a.name == "" && a.tagNames == "" &&
      a.sortDirection == "" && a.sortProperty == "" && a.expansion == [] && a.includeType == []
    ensures GetAllParams(a).Keys == {Favorite, Approved, Limit, Page}
  {
    forall k: Key
      ensures k in GetAllParams(a) <==> k in {Favorite, Approved, Limit, Page}
    {
      GetAllParamsFollowRules(a, k);
    }
  }

  /** With every optional string and list non-empty, GetAll sends every one
      of its keys. */
  lemma GetAllMostKeys(a: GetAllArgs)
    requires a.rsids != "" && a.ownerId != "" && a.filterByIds != "" &&
      a.toBeUsedInRsid != "" && a.locale != "" && a.name != "" && a.tagNames != "" &&
      a.sortDirection != "" && a.sortProperty != "" && a.expansion != [] && a.includeType != []
    ensures forall k :: k in GetAllParams(a) <==> GetAllKey(k)
  {
    forall k: Key
      ensures k in GetAllParams(a) <==> GetAllKey(k)
    {
      GetAllParamsFollowRules(a, k);
    }
  }

  /** The server's reading of a GetAll query: absent strings as "", absent lists
      as empty, lists split at commas; `favorite`, `approved`, `limit` and
      `page` must be present and well formed. */
  function DecodeGetAll(p: Params): Option<GetAllArgs>
  {
    var favorite := ReadBool(p, Favorite);
    var approved := ReadBool(p, Approved);
    var limit := ReadInt(p, Limit);
    var page := ReadInt(p, Page);
    if favorite.Some? && approved.Some? && limit.Some? && page.Some? then
      Some(GetAllArgs(ReadString(p, Rsids), ReadString(p, OwnerId), ReadString(p, FilterByIds),
        ReadString(p, ToBeUsedInRsid), ReadString(p, Locale), ReadString(p, Name),
        ReadString(p, TagNames), favorite.value, approved.value, limit.value, page.value,
        ReadString(p, SortDirection), ReadString(p, SortProperty), ReadList(p, Expansion),
        ReadList(p, IncludeType)))
    else None
  }

  /** The query loses nothing: the server reads back every argument, provided
      no list element holds a comma. */
  lemma DecodeGetAllParams(a: GetAllArgs)
    requires CommaFree(a.expansion) && CommaFree(a.includeType)
    ensures DecodeGetAll(GetAllParams(a)) == Some(a)
  {
    var p := GetAllParams(a);
    GetAllSendsRsids(a);
    GetAllSendsOwnerId(a);
    GetAllSendsFilterByIds(a);
    GetAllSendsToBeUsedInRsid(a);
    GetAllSendsLocale(a);
    GetAllSendsName(a);
    GetAllSendsTagNames(a);
    GetAllSendsFavorite(a);
    GetAllSendsApproved(a);
    GetAllSendsLimit(a);
    GetAllSendsPage(a);
    GetAllSendsSortDirection(a);
    GetAllSendsSortProperty(a);
    GetAllSendsExpansion(a);
    GetAllSendsIncludeType(a);
    JoinedReadsBack(p, Expansion, a.expansion);
    JoinedReadsBack(p, IncludeType, a.includeType);
  }

  /** Distinct arguments give distinct queries (lists without commas). */
  lemma GetAllParamsInjective(a: GetAllArgs, b: GetAllArgs)
    requires CommaFree(a.expansion) && CommaFree(a.includeType)
    requires CommaFree(b.expansion) && CommaFree(b.includeType)
    ensures GetAllParams(a) == GetAllParams(b) ==> a == b
  {
    DecodeGetAllParams(a);
    DecodeGetAllParams(b);
  }
}
