/** The requests of the users service (analytics/users.go): a paged list of the
    company's users, and the current user. */
module Users {
  import opened Text
  import opened Query

  const ListPath := "/users"

  /** GetCurrent's path: a fixed sub-path, requested with no parameters. */
  const CurrentPath := "/users/me"

  /** The parameters GetAll sends: both paging numbers, always. */
  function GetAllParams(limit: int64, page: int64): (p: Params)
    ensures p.Keys == {Limit, Page}
    ensures ReadInt(p, Limit) == Some(limit) && ReadInt(p, Page) == Some(page)
  {
    map[Limit := FormatInt(limit), Page := FormatInt(page)]
  }

  /** GetAll's parameter building. */
  method BuildGetAllParams(limit: int64, page: int64) returns (params: Params)
    ensures params == GetAllParams(limit, page)
  {
    params := map[];
    params := params[Limit := FormatInt(limit)];
    params := params[Page := FormatInt(page)];
  }

  /** Distinct paging arguments give distinct queries. */
  lemma GetAllParamsInjective(limit: int64, page: int64, limit': int64, page': int64)
    ensures GetAllParams(limit, page) == GetAllParams(limit', page') ==> limit == limit' && page == page'
  {
    var p, p' := GetAllParams(limit, page), GetAllParams(limit', page');
    if p == p' {
      assert ReadInt(p, Limit) == ReadInt(p', Limit);
      assert ReadInt(p, Page) == ReadInt(p', Page);
    }
  }
}
