/** Query parameters. A resource operation builds a Params map (Go's
    map[string]string, one value per key); the request URL carries a Values
    map (Go's url.Values, a list of values per key) to which addParams adds
    every parameter. Parameter names come from the fixed set the seven
    services use: each is a Key, spelled on the wire as Spelling(k). */
module Query {
  import opened Text

  /** A query parameter name. */
  newtype Key = k: int | 0 <= k < 22

  const Rsids: Key := 0
  const OwnerId: Key := 1
  const FilterByIds: Key := 2
  const ToBeUsedInRsid: Key := 3
  const Locale: Key := 4
  const Name: Key := 5
  const TagNames: Key := 6
  const Favorite: Key := 7
  const Approved: Key := 8
  const Limit: Key := 9
  const Page: Key := 10
  const SortDirection: Key := 11
  const SortProperty: Key := 12
  const Expansion: Key := 13
  const IncludeType: Key := 14
  const SegmentFilter: Key := 15
  const FilterByPublishedSegments: Key := 16
  const Rsid: Key := 17
  const Segmentable: Key := 18
  const Reportable: Key := 19
  const Classifiable: Key := 20
  const RsidContains: Key := 21

  /** The wire spellings, indexed by key. */
  const Spellings: seq<string> := [
    "rsids", "ownerId", "filterByIds", "toBeUsedInRsid", "locale", "name", "tagNames",
    "favorite", "approved", "limit", "page", "sortDirection", "sortProperty", "expansion",
    "includeType", "segmentFilter", "filterByPublishedSegments", "rsid", "segmentable",
    "reportable", "classifiable", "rsidContains"]

  /** The text a key has in the request URL. */
  function Spelling(k: Key): string
  {
    Spellings[k]
  }

  /** The key a server recognises in a parameter name, if any. */
  function KeyNamed(s: string): Option<Key>
  {
    if s == "rsids" then Some(Rsids)
    else if s == "ownerId" then Some(OwnerId)
    else if s == "filterByIds" then Some(FilterByIds)
    else if s == "toBeUsedInRsid" then Some(ToBeUsedInRsid)
    else if s == "locale" then Some(Locale)
    else if s == "name" then Some(Name)
    else if s == "tagNames" then Some(TagNames)
    else if s == "favorite" then Some(Favorite)
    else if s == "approved" then Some(Approved)
    else if s == "limit" then Some(Limit)
    else if s == "page" then Some(Page)
    else if s == "sortDirection" then Some(SortDirection)
    else if s == "sortProperty" then Some(SortProperty)
    else if s == "expansion" then Some(Expansion)
    else if s == "includeType" then Some(IncludeType)
    else if s == "segmentFilter" then Some(SegmentFilter)
    else if s == "filterByPublishedSegments" then Some(FilterByPublishedSegments)
    else if s == "rsid" then Some(Rsid)
    else if s == "segmentable" then Some(Segmentable)
    else if s == "reportable" then Some(Reportable)
    else if s == "classifiable" then Some(Classifiable)
    else if s == "rsidContains" then Some(RsidContains)
    else None
  }

  /** Every key is read back from its spelling, so no two keys share one. */
  lemma SpellingReadsBack(k: Key)
    ensures KeyNamed(Spelling(k)) == Some(k)
  {
  }

  type Params = map<Key, string>
  type Values = map<Key, seq<string>>

  /** What a builder sends for a string filter: the value, only when non-empty. */
  function NonEmpty(v: string): Option<string>
  {
    if v != "" then Some(v) else None
  }

  /** What a builder sends for a list filter: the comma-joined elements, only
      when there is at least one. */
  function Joined(xs: seq<string>): Option<string>
  {
    if 0 < |xs| then Some(Join(xs, ",")) else None
  }

  /** p sends v for key: present with that value, or absent when v is None. */
  predicate Matches(p: Params, key: Key, v: Option<string>)
  {
    (key in p <==> v.Some?) && (key in p ==> p[key] == v.value)
  }

  /** `params[key] = v` */
  function Put(p: Params, key: Key, v: string): (r: Params)
    ensures key in r && r[key] == v
    ensures forall k :: k != key ==> (k in r <==> k in p) && (k in p ==> r[k] == p[k])
    ensures forall k :: k in r ==> k in p || k == key
  {
    p[key := v]
  }

  /** `if v != "" { params[key] = v }` */
  function PutIfNonEmpty(p: Params, key: Key, v: string): (r: Params)
    ensures key in r <==> key in p || v != ""
    ensures key in r ==> r[key] == if v != "" then v else p[key]
    ensures forall k :: k != key ==> (k in r <==> k in p) && (k in p ==> r[k] == p[k])
    ensures forall k :: k in r ==> k in p || k == key
  {
    if v != "" then p[key := v] else p
  }

  /** `if len(xs) > 0 { params[key] = strings.Join(xs, ",") }` */
  function PutJoined(p: Params, key: Key, xs: seq<string>): (r: Params)
    ensures key in r <==> key in p || 0 < |xs|
    ensures key in r ==> r[key] == if 0 < |xs| then Join(xs, ",") else p[key]
    ensures forall k :: k != key ==> (k in r <==> k in p) && (k in p ==> r[k] == p[k])
    ensures forall k :: k in r ==> k in p || k == key
  {
    if 0 < |xs| then p[key := Join(xs, ",")] else p
  }

  /** The conditional insertion of a string filter, in place. */
  method SetIfNonEmpty(params: Params, key: Key, v: string) returns (r: Params)
    ensures r == PutIfNonEmpty(params, key, v)
  {
    r := params;
    if v != "" {
      r := r[key := v];
    }
  }

  /** The conditional insertion of a comma-joined list, in place. */
  method SetJoined(params: Params, key: Key, xs: seq<string>) returns (r: Params)
    ensures r == PutJoined(params, key, xs)
  {
    r := params;
    if 0 < |xs| {
      r := r[key := Join(xs, ",")];
    }
  }

  /** What a server reads for a string filter: the value, or "" when absent. */
  function ReadString(p: Params, key: Key): string
  {
    if key in p then p[key] else ""
  }

  /** What a server reads for a list filter: the comma-split value, or no
      elements when absent. */
  function ReadList(p: Params, key: Key): seq<string>
  {
    if key in p then Split(p[key], ',') else []
  }

  /** What a server reads for a boolean flag: Go's ParseBool of the value. */
  function ReadBool(p: Params, key: Key): Option<bool>
  {
    if key in p then ParseBool(p[key]) else None
  }

  /** What a server reads for a paging number: the value as an int64. */
  function ReadInt(p: Params, key: Key): Option<int64>
  {
    if key in p then ParseInt64(p[key]) else None
  }

  /** No element holds the separator, so the joined list can be split back. */
  predicate CommaFree(xs: seq<string>)
  {
    forall i :: 0 <= i < |xs| ==> ',' !in xs[i]
  }

  /** A string filter sent by the NonEmpty rule reads back as the argument. */
  lemma NonEmptyReadsBack(p: Params, key: Key, v: string)
    requires Matches(p, key, NonEmpty(v))
    ensures ReadString(p, key) == v
  {
  }

  /** A list filter sent by the Joined rule reads back as the original list,
      provided no element holds a comma. */
  lemma JoinedReadsBack(p: Params, key: Key, xs: seq<string>)
    requires Matches(p, key, Joined(xs)) && CommaFree(xs)
    ensures ReadList(p, key) == xs
  {
    if 0 < |xs| {
      SplitJoin(xs, ',');
    }
  }

  /** The parameters of the by-id operations of calculated metrics, segments
      and date ranges: locale when non-empty, expansion when non-empty. */
  function LocaleExpansionParams(locale: string, expansion: seq<string>): (p: Params)
    ensures p.Keys <= {Locale, Expansion}
    ensures Matches(p, Locale, NonEmpty(locale))
    ensures Matches(p, Expansion, Joined(expansion))
  {
    PutJoined(PutIfNonEmpty(map[], Locale, locale), Expansion, expansion)
  }

  /** The by-id builder shared by calculated metrics, segments and date ranges. */
  method BuildLocaleExpansionParams(locale: string, expansion: seq<string>) returns (params: Params)
    ensures params == LocaleExpansionParams(locale, expansion)
  {
    params := map[];
    if locale != "" {
      params := params[Locale := locale];
    }
    if 0 < |expansion| {
      params := params[Expansion := Join(expansion, ",")];
    }
  }

  /** The parameters of the by-id operations of dimensions and metrics: rsid
      always, locale and expansion when non-empty. */
  function RsidLocaleExpansionParams(rsid: string, locale: string, expansion: seq<string>): (p: Params)
    ensures p.Keys <= {Rsid, Locale, Expansion}
    ensures Matches(p, Rsid, Some(rsid))
    ensures Matches(p, Locale, NonEmpty(locale))
    ensures Matches(p, Expansion, Joined(expansion))
  {
    PutJoined(PutIfNonEmpty(map[Rsid := rsid], Locale, locale), Expansion, expansion)
  }

  /** The by-id builder shared by dimensions and metrics. */
  method BuildRsidLocaleExpansionParams(rsid: string, locale: string, expansion: seq<string>)
    returns (params: Params)
    ensures params == RsidLocaleExpansionParams(rsid, locale, expansion)
  {
    params := map[];
    params := params[Rsid := rsid];
    if locale != "" {
      params := params[Locale := locale];
    }
    if 0 < |expansion| {
      params := params[Expansion := Join(expansion, ",")];
    }
  }

  /** The parameters of the by-id operation of collections: expansion when
      non-empty, nothing else. */
  function ExpansionParams(expansion: seq<string>): (p: Params)
    ensures p.Keys <= {Expansion}
    ensures Matches(p, Expansion, Joined(expansion))
  {
    PutJoined(map[], Expansion, expansion)
  }

  /** The by-id builder of collections. */
  method BuildExpansionParams(expansion: seq<string>) returns (params: Params)
    ensures params == ExpansionParams(expansion)
  {
    params := map[];
    if 0 < |expansion| {
      params := params[Expansion := Join(expansion, ",")];
    }
  }

  /** The by-id queries lose nothing: the server reads back the locale and the
      expansion list (without commas in its elements), and the report suite
      where one is sent. */
  lemma ByIdParamsReadBack(rsid: string, locale: string, expansion: seq<string>)
    requires CommaFree(expansion)
    ensures ReadList(ExpansionParams(expansion), Expansion) == expansion
    ensures var p := LocaleExpansionParams(locale, expansion);
      ReadString(p, Locale) == locale && ReadList(p, Expansion) == expansion
    ensures var p := RsidLocaleExpansionParams(rsid, locale, expansion);
      ReadString(p, Rsid) == rsid && ReadString(p, Locale) == locale
      && ReadList(p, Expansion) == expansion
  {
    JoinedReadsBack(ExpansionParams(expansion), Expansion, expansion);
    JoinedReadsBack(LocaleExpansionParams(locale, expansion), Expansion, expansion);
    JoinedReadsBack(RsidLocaleExpansionParams(rsid, locale, expansion), Expansion, expansion);
  }

  /** The values of key in q (none when absent), as url.Values indexing gives them. */
  function ValuesOf(q: Values, key: Key): seq<string>
  {
    if key in q then q[key] else []
  }

  /** url.Values.Get: the first value of key, or "". */
  function Get(q: Values, key: Key): string
  {
    if key in q && 0 < |q[key]| then q[key][0] else ""
  }

  /** The query after q.Add(k, params[k]) for every key of params. Because a
      map holds each key once, the order in which the keys are visited does
      not matter. */
  function WithAdded(q: Values, params: Params): (r: Values)
  {
    map k | k in q.Keys + params.Keys :: ValuesOf(q, k) + (if k in params then [params[k]] else [])
  }

  /** addParams: visits the keys of params in an unspecified order (Go's map
      iteration order) and appends each value to that key's list. */
  method AddParams(q: Values, params: Params) returns (r: Values)
    ensures r == WithAdded(q, params)
  {
    r := q;
    var pending := params.Keys;
    while pending != {}
      invariant pending <= params.Keys
      invariant r.Keys == q.Keys + (params.Keys - pending)
      invariant forall k :: k in r ==>
        r[k] == ValuesOf(q, k) + (if k in params && k !in pending then [params[k]] else [])
      decreases pending
    {
      var k :| k in pending;
      r := r[k := ValuesOf(r, k) + [params[k]]];
      pending := pending - {k};
    }
    assert r.Keys == WithAdded(q, params).Keys;
  }

  /** Adding keeps every value already in the query: each key of params gains
      exactly its value at the end of its list, and every other key keeps its
      list. */
  lemma AddKeepsExistingValues(q: Values, params: Params, key: Key)
    ensures var r := WithAdded(q, params);
      && (key in r <==> key in q || key in params)
      && (key in params ==> r[key] == ValuesOf(q, key) + [params[key]])
      && (key !in params && key in q ==> r[key] == q[key])
  {
  }

  /** Starting from an empty query, as every request does, the query carries
      exactly the parameters: one value per key, read back by Get. */
  lemma FreshQueryCarriesParams(params: Params)
    ensures var r := WithAdded(map[], params);
      && r.Keys == params.Keys
      && forall k :: k in params ==> r[k] == [params[k]] && Get(r, k) == params[k]
  {
  }
}
