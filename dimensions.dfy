/** The requests of the dimensions service (analytics/dimensions.go): the
    dimensions of one report suite, listed or fetched by id. */
module Dimensions {
  import opened Text
  import opened Query

  const ListPath := "/dimensions"

  /** The path of the by-id operation: the id is spliced into the path, never
      into the query. */
  function ByIdPath(id: string): (path: string)
    ensures HasPrefix(path, ListPath + "/") && path[|ListPath| + 1..] == id
  {
    ListPath + "/" + id
  }

  /** The arguments of GetAll, in the order of the Go signature. */
  datatype GetAllArgs = GetAllArgs(
    rsid: string, locale: string, segmentable: bool, reportable: bool, classifiable: bool,
    expansion: seq<string>)

  /** The 6 keys GetAll may send. */
  predicate GetAllKey(k: Key)
  {
    || k == Rsid || k == Locale || k == Segmentable || k == Reportable || k == Classifiable
    || k == Expansion
  }

  /** The parameters GetAll sends, inserted in the order of the Go code. */
  function GetAllParams(a: GetAllArgs): Params
  {
    PutJoined(Put(Put(Put(PutIfNonEmpty(Put(
      map[],
      Rsid, a.rsid), Locale, a.locale), Segmentable, FormatBool(a.segmentable)),
      Reportable, FormatBool(a.reportable)), Classifiable, FormatBool(a.classifiable)),
      Expansion, a.expansion)
  }

  /** GetAll's parameter building, one insertion at a time. */
  method BuildGetAllParams(a: GetAllArgs) returns (params: Params)
    ensures params == GetAllParams(a)
  {
    params := map[];
    params := params[Rsid := a.rsid];
    params := SetIfNonEmpty(params, Locale, a.locale);
    params := params[Segmentable := FormatBool(a.segmentable)];
    params := params[Reportable := FormatBool(a.reportable)];
    params := params[Classifiable := FormatBool(a.classifiable)];
    params := SetJoined(params, Expansion, a.expansion);
  }

  /** The rule for each key on its own: what GetAll sends for it, if anything.
      `rsid` always; `locale` only when non-empty; the flags `segmentable`,
      `reportable` and `classifiable` always; the list `expansion` only when
      non-empty. */
  function GetAllSends(a: GetAllArgs, k: Key): Option<string>
  {
    if k == Rsid then Some(a.rsid)
    else if k == Locale then NonEmpty(a.locale)
    else if k == Segmentable then Some(FormatBool(a.segmentable))
    else if k == Reportable then Some(FormatBool(a.reportable))
    else if k == Classifiable then Some(FormatBool(a.classifiable))
    else if k == Expansion then Joined(a.expansion)
    else None
  }

  lemma GetAllSendsRsid(a: GetAllArgs)
    ensures Matches(GetAllParams(a), Rsid, Some(a.rsid))
    ensures ReadString(GetAllParams(a), Rsid) == a.rsid
  {
  }

  lemma GetAllSendsLocale(a: GetAllArgs)
    ensures Matches(GetAllParams(a), Locale, NonEmpty(a.locale))
    ensures ReadString(GetAllParams(a), Locale) == a.locale
  {
  }

  lemma GetAllSendsSegmentable(a: GetAllArgs)
    ensures Matches(GetAllParams(a), Segmentable, Some(FormatBool(a.segmentable)))
    ensures ReadBool(GetAllParams(a), Segmentable) == Some(a.segmentable)
  {
  }

  lemma GetAllSendsReportable(a: GetAllArgs)
    ensures Matches(GetAllParams(a), Reportable, Some(FormatBool(a.reportable)))
    ensures ReadBool(GetAllParams(a), Reportable) == Some(a.reportable)
  {
  }

  lemma GetAllSendsClassifiable(a: GetAllArgs)
    ensures Matches(GetAllParams(a), Classifiable, Some(FormatBool(a.classifiable)))
    ensures ReadBool(GetAllParams(a), Classifiable) == Some(a.classifiable)
  {
  }

  lemma GetAllSendsExpansion(a: GetAllArgs)
    ensures Matches(GetAllParams(a), Expansion, Joined(a.expansion))
  {
  }

  lemma GetAllSendsNothingElse(a: GetAllArgs, k: Key)
    requires !GetAllKey(k)
    ensures k !in GetAllParams(a)
  {
  }

  /** The insertion sequence follows the per-key rules: every key is present
      exactly when its rule sends something, with that value, and no other key
      is ever present. */
  lemma GetAllParamsFollowRules(a: GetAllArgs, k: Key)
    ensures Matches(GetAllParams(a), k, GetAllSends(a, k))
  {
    if k == Rsid {
      GetAllSendsRsid(a);
    } else if k == Locale {
      GetAllSendsLocale(a);
    } else if k == Segmentable {
      GetAllSendsSegmentable(a);
    } else if k == Reportable {
      GetAllSendsReportable(a);
    } else if k == Classifiable {
      GetAllSendsClassifiable(a);
    } else if k == Expansion {
      GetAllSendsExpansion(a);
    } else {
      GetAllSendsNothingElse(a, k);
    }
  }

  /** With every optional string and list empty, GetAll sends exactly the
      keys it always sends. */
  lemma GetAllFewestKeys(a: GetAllArgs)
    requires a.locale == "" && a.expansion == []
    ensures GetAllParams(a).Keys == {Rsid, Segmentable, Reportable, Classifiable}
  {
    forall k: Key
      ensures k in GetAllParams(a) <==> k in {Rsid, Segmentable, Reportable, Classifiable}
    {
      GetAllParamsFollowRules(a, k);
    }
  }

  /** With every optional string and list non-empty, GetAll sends every one
      of its keys. */
  lemma GetAllMostKeys(a: GetAllArgs)
    requires a.locale != "" && a.expansion != []
    ensures forall k :: k in GetAllParams(a) <==> GetAllKey(k)
  {
    forall k: Key
      ensures k in GetAllParams(a) <==> GetAllKey(k)
    {
      GetAllParamsFollowRules(a, k);
    }
  }

  /** The server's reading of a GetAll query: absent strings as "", absent lists
      as empty, lists split at commas; `segmentable`, `reportable` and
      `classifiable` must be present and well formed. */
  function DecodeGetAll(p: Params): Option<GetAllArgs>
  {
    var segmentable := ReadBool(p, Segmentable);
    var reportable := ReadBool(p, Reportable);
    var classifiable := ReadBool(p, Classifiable);
    if segmentable.Some? && reportable.Some? && classifiable.Some? then
      Some(GetAllArgs(ReadString(p, Rsid), ReadString(p, Locale), segmentable.value,
        reportable.value, classifiable.value, ReadList(p, Expansion)))
    else None
  }

  /** The query loses nothing: the server reads back every argument, provided
      no list element holds a comma. */
  lemma DecodeGetAllParams(a: GetAllArgs)
    requires CommaFree(a.expansion)
    ensures DecodeGetAll(GetAllParams(a)) == Some(a)
  {
    var p := GetAllParams(a);
    GetAllSendsRsid(a);
    GetAllSendsLocale(a);
    GetAllSendsSegmentable(a);
    GetAllSendsReportable(a);
    GetAllSendsClassifiable(a);
    GetAllSendsExpansion(a);
    JoinedReadsBack(p, Expansion, a.expansion);
  }

  /** Distinct arguments give distinct queries (lists without commas). */
  lemma GetAllParamsInjective(a: GetAllArgs, b: GetAllArgs)
    requires CommaFree(a.expansion)
    requires CommaFree(b.expansion)
    ensures GetAllParams(a) == GetAllParams(b) ==> a == b
  {
    DecodeGetAllParams(a);
    DecodeGetAllParams(b);
  }
}
