/** The requests of the collections service (analytics/collections.go): report
    suites, listed or fetched by id. */
module Collections {
  import opened Text
  import opened Query

  const ListPath := "/collections/suites"

  /** The path of the by-id operation: the id is spliced into the path, never
      into the query. */
  function ByIdPath(id: string): (path: string)
    ensures HasPrefix(path, ListPath + "/") && path[|ListPath| + 1..] == id
  {
    ListPath + "/" + id
  }

  /** The arguments of GetAll, in the order of the Go signature. */
  datatype GetAllArgs = GetAllArgs(
    rsids: string, rsidContains: string, limit: int64, page: int64, expansion: seq<string>)

  /** The 5 keys GetAll may send. */
  predicate GetAllKey(k: Key)
  {
    || k == Rsids || k == RsidContains || k == Limit || k == Page || k == Expansion
  }

  /** The parameters GetAll sends, inserted in the order of the Go code. */
  function GetAllParams(a: GetAllArgs): Params
  {
    PutJoined(Put(Put(PutIfNonEmpty(PutIfNonEmpty(
      map[],
      Rsids, a.rsids), RsidContains, a.rsidContains), Limit, FormatInt(a.limit)),
      Page, FormatInt(a.page)), Expansion, a.expansion)
  }

  /** GetAll's parameter building, one insertion at a time. */
  method BuildGetAllParams(a: GetAllArgs) returns (params: Params)
    ensures params == GetAllParams(a)
  {
    params := map[];
    params := SetIfNonEmpty(params, Rsids, a.rsids);
    params := SetIfNonEmpty(params, RsidContains, a.rsidContains);
    params := params[Limit := FormatInt(a.limit)];
    params := params[Page := FormatInt(a.page)];
    params := SetJoined(params, Expansion, a.expansion);
  }

  /** The rule for each key on its own: what GetAll sends for it, if anything.
      `rsids` and `rsidContains` only when non-empty; the paging numbers `limit`
      and `page` always; the list `expansion` only when non-empty. */
  function GetAllSends(a: GetAllArgs, k: Key): Option<string>
  {
    if k == Rsids then NonEmpty(a.rsids)
    else if k == RsidContains then NonEmpty(a.rsidContains)
    else if k == Limit then Some(FormatInt(a.limit))
    else if k == Page then Some(FormatInt(a.page))
    else if k == Expansion then Joined(a.expansion)
    else None
  }

  lemma GetAllSendsRsids(a: GetAllArgs)
    ensures Matches(GetAllParams(a), Rsids, NonEmpty(a.rsids))
    ensures ReadString(GetAllParams(a), Rsids) == a.rsids
  {
  }

  lemma GetAllSendsRsidContains(a: GetAllArgs)
    ensures Matches(GetAllParams(a), RsidContains, NonEmpty(a.rsidContains))
    ensures ReadString(GetAllParams(a), RsidContains) == a.rsidContains
  {
  }

  lemma GetAllSendsLimit(a: GetAllArgs)
    ensures Matches(GetAllParams(a), Limit, Some(FormatInt(a.limit)))
    ensures ReadInt(GetAllParams(a), Limit) == Some(a.limit)
  {
  }

  lemma GetAllSendsPage(a: GetAllArgs)
    ensures Matches(GetAllParams(a), Page, Some(FormatInt(a.page)))
    ensures ReadInt(GetAllParams(a), Page) == Some(a.page)
  {
  }

  lemma GetAllSendsExpansion(a: GetAllArgs)
    ensures Matches(GetAllParams(a), Expansion, Joined(a.expansion))
  {
  }

  lemma GetAllSendsNothingElse(a: GetAllArgs, k: Key)
    requires !GetAllKey(k)
    ensures k !in GetAllParams(a)
  {
  }

  /** The insertion sequence follows the per-key rules: every key is present
      exactly when its rule sends something, with that value, and no other key
      is ever present. */
  lemma GetAllParamsFollowRules(a: GetAllArgs, k: Key)
    ensures Matches(GetAllParams(a), k, GetAllSends(a, k))
  {
    if k == Rsids {
      GetAllSendsRsids(a);
    } else if k == RsidContains {
      GetAllSendsRsidContains(a);
    } else if k == Limit {
      GetAllSendsLimit(a);
    } else if k == Page {
      GetAllSendsPage(a);
    } else if k == Expansion {
      GetAllSendsExpansion(a);
    } else {
      GetAllSendsNothingElse(a, k);
    }
  }

  /** With every optional string and list empty, GetAll sends exactly the
      keys it always sends. */
  lemma GetAllFewestKeys(a: GetAllArgs)
    requires a.rsids == "" && a.rsidContains == "" && a.expansion == []
    ensures GetAllParams(a).Keys == {Limit, Page}
  {
    forall k: Key
      ensures k in GetAllParams(a) <==> k in {Limit, Page}
    {
      GetAllParamsFollowRules(a, k);
    }
  }

  /** With every optional string and list non-empty, GetAll sends every one
      of its keys. */
  lemma GetAllMostKeys(a: GetAllArgs)
    requires a.rsids != "" && a.rsidContains != "" && a.expansion != []
    ensures forall k :: k in GetAllParams(a) <==> GetAllKey(k)
  {
    forall k: Key
      ensures k in GetAllParams(a) <==> GetAllKey(k)
    {
      GetAllParamsFollowRules(a, k);
    }
  }

  /** The server's reading of a GetAll query: absent strings as "", absent lists
      as empty, lists split at commas; `limit` and `page` must be present and
      well formed. */
  function DecodeGetAll(p: Params): Option<GetAllArgs>
  {
    var limit := ReadInt(p, Limit);
    var page := ReadInt(p, Page);
    if limit.Some? && page.Some? then
      Some(GetAllArgs(ReadString(p, Rsids), ReadString(p, RsidContains), limit.value,
        page.value, ReadList(p, Expansion)))
    else None
  }

  /** The query loses nothing: the server reads back every argument, provided
      no list element holds a comma. */
  lemma DecodeGetAllParams(a: GetAllArgs)
    requires CommaFree(a.expansion)
    ensures DecodeGetAll(GetAllParams(a)) == Some(a)
  {
    var p := GetAllParams(a);
    GetAllSendsRsids(a);
    GetAllSendsRsidContains(a);
    GetAllSendsLimit(a);
    GetAllSendsPage(a);
    GetAllSendsExpansion(a);
    JoinedReadsBack(p, Expansion, a.expansion);
  }

  /** Distinct arguments give distinct queries (lists without commas). */
  lemma GetAllParamsInjective(a: GetAllArgs, b: GetAllArgs)
    requires CommaFree(a.expansion)
    requires CommaFree(b.expansion)
    ensures GetAllParams(a) == GetAllParams(b) ==> a == b
  {
    DecodeGetAllParams(a);
    DecodeGetAllParams(b);
  }
}
