/** The requests of the date-ranges service (analytics/dateranges.go): a list
    operation and a by-id operation. */
module DateRanges {
  import opened Text
  import opened Query

  const ListPath := "/dateranges"

  /** The path of the by-id operation: the id is spliced into the path, never
      into the query. */
  function ByIdPath(id: string): (path: string)
    ensures HasPrefix(path, ListPath + "/") && path[|ListPath| + 1..] == id
  {
    ListPath + "/" + id
  }

  /** The arguments of GetAll, in the order of the Go signature. */
  datatype GetAllArgs = GetAllArgs(
    locale: string, filterByIds: string, limit: int64, page: int64, expansion: seq<string>,
    includeType: seq<string>)

  /** The 6 keys GetAll may send. */
  predicate GetAllKey(k: Key)
  {
    || k == Locale || k == FilterByIds || k == Limit || k == Page || k == Expansion
    || k == IncludeType
  }

  /** The parameters GetAll sends, inserted in the order of the Go code. */
  function GetAllParams(a: GetAllArgs): Params
  {
    PutJoined(PutJoined(Put(Put(PutIfNonEmpty(PutIfNonEmpty(
      map[],
      Locale, a.locale), FilterByIds, a.filterByIds), Limit, FormatInt(a.limit)),
      Page, FormatInt(a.page)), Expansion, a.expansion), IncludeType, a.includeType)
  }

  /** GetAll's parameter building, one insertion at a time. */
  method BuildGetAllParams(a: GetAllArgs) returns (params: Params)
    ensures params == GetAllParams(a)
  {
    params := map[];
    params := SetIfNonEmpty(params, Locale, a.locale);
    params := SetIfNonEmpty(params, FilterByIds, a.filterByIds);
    params := params[Limit := FormatInt(a.limit)];
    params := params[Page := FormatInt(a.page)];
    params := SetJoined(params, Expansion, a.expansion);
    params := SetJoined(params, IncludeType, a.includeType);
  }

  /** The rule for each key on its own: what GetAll sends for it, if anything.
      `locale` and `filterByIds` only when non-empty; the paging numbers `limit`
      and `page` always; the lists `expansion` and `includeType` only when
      non-empty. */
  function GetAllSends(a: GetAllArgs, k: Key): Option<string>
  {
    if k == Locale then NonEmpty(a.locale)
    else if k == FilterByIds then NonEmpty(a.filterByIds)
    else if k == Limit then Some(FormatInt(a.limit))
    else if k == Page then Some(FormatInt(a.page))
    else if k == Expansion then Joined(a.expansion)
    else if k == IncludeType then Joined(a.includeType)
    else None
  }

  lemma GetAllSendsLocale(a: GetAllArgs)
    ensures Matches(GetAllParams(a), Locale, NonEmpty(a.locale))
    ensures ReadString(GetAllParams(a), Locale) == a.locale
  {
  }

  lemma GetAllSendsFilterByIds(a: GetAllArgs)
    ensures Matches(GetAllParams(a), FilterByIds, NonEmpty(a.filterByIds))
    ensures ReadString(GetAllParams(a), FilterByIds) == a.filterByIds
  {
  }

  lemma GetAllSendsLimit(a: GetAllArgs)
    ensures Matches(GetAllParams(a), Limit, Some(FormatInt(a.limit)))
    ensures ReadInt(GetAllParams(a), Limit) == Some(a.limit)
  {
  }

  lemma GetAllSendsPage(a: GetAllArgs)
    ensures Matches(GetAllParams(a), Page, Some(FormatInt(a.page)))
    ensures ReadInt(GetAllParams(a), Page) == Some(a.page)
  {
  }

  lemma GetAllSendsExpansion(a: GetAllArgs)
    ensures Matches(GetAllParams(a), Expansion, Joined(a.expansion))
  {
  }

  lemma GetAllSendsIncludeType(a: GetAllArgs)
    ensures Matches(GetAllParams(a), IncludeType, Joined(a.includeType))
  {
  }

  lemma GetAllSendsNothingElse(a: GetAllArgs, k: Key)
    requires !GetAllKey(k)
    ensures k !in GetAllParams(a)
  {
  }

  /** The insertion sequence follows the per-key rules: every key is present
      exactly when its rule sends something, with that value, and no other key
      is ever present. */
  lemma GetAllParamsFollowRules(a: GetAllArgs, k: Key)
    ensures Matches(GetAllParams(a), k, GetAllSends(a, k))
  {
    if k == Locale {
      GetAllSendsLocale(a);
    } else if k == FilterByIds {
      GetAllSendsFilterByIds(a);
    } else if k == Limit {
      GetAllSendsLimit(a);
    } else if k == Page {
      GetAllSendsPage(a);
    } else if k == Expansion {
      GetAllSendsExpansion(a);
    } else if k == IncludeType {
      GetAllSendsIncludeType(a);
    } else {
      GetAllSendsNothingElse(a, k);
    }
  }

  /** With every optional string and list empty, GetAll sends exactly the
      keys it always sends. */
  lemma GetAllFewestKeys(a: GetAllArgs)
    requires a.locale == "" && a.filterByIds == "" && a.expansion == [] && a.includeType == []
    ensures GetAllParams(a).Keys == {Limit, Page}
  {
    forall k: Key
      ensures k in GetAllParams(a) <==> k in {Limit, Page}
    {
      GetAllParamsFollowRules(a, k);
    }
  }

  /** With every optional string and list non-empty, GetAll sends every one
      of its keys. */
  lemma GetAllMostKeys(a: GetAllArgs)
    requires a.locale != "" && a.filterByIds != "" && a.expansion != [] && a.includeType != []
    ensures forall k :: k in GetAllParams(a) <==> GetAllKey(k)
  {
    forall k: Key
      ensures k in GetAllParams(a) <==> GetAllKey(k)
    {
      GetAllParamsFollowRules(a, k);
    }
  }

  /** The server's reading of a GetAll query: absent strings as "", absent lists
      as empty, lists split at commas; `limit` and `page` must be present and
      well formed. */
  function DecodeGetAll(p: Params): Option<GetAllArgs>
  {
    var limit := ReadInt(p, Limit);
    var page := ReadInt(p, Page);
    if limit.Some? && page.Some? then
      Some(GetAllArgs(ReadString(p, Locale), ReadString(p, FilterByIds), limit.value,
        page.value, ReadList(p, Expansion), ReadList(p, IncludeType)))
    else None
  }

  /** The query loses nothing: the server reads back every argument, provided
      no list element holds a comma. */
  lemma DecodeGetAllParams(a: GetAllArgs)
    requires CommaFree(a.expansion) && CommaFree(a.includeType)
    ensures DecodeGetAll(GetAllParams(a)) == Some(a)
  {
    var p := GetAllParams(a);
    GetAllSendsLocale(a);
    GetAllSendsFilterByIds(a);
    GetAllSendsLimit(a);
    GetAllSendsPage(a);
    GetAllSendsExpansion(a);
    GetAllSendsIncludeType(a);
    JoinedReadsBack(p, Expansion, a.expansion);
    JoinedReadsBack(p, IncludeType, a.includeType);
  }

  /** Distinct arguments give distinct queries (lists without commas). */
  lemma GetAllParamsInjective(a: GetAllArgs, b: GetAllArgs)
    requires CommaFree(a.expansion) && CommaFree(a.includeType)
    requires CommaFree(b.expansion) && CommaFree(b.includeType)
    ensures GetAllParams(a) == GetAllParams(b) ==> a == b
  {
    DecodeGetAllParams(a);
    DecodeGetAllParams(b);
  }
}
