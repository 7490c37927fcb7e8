/** The Client of analytics/client.go and its seven services: a client
    holds the HTTP client, the checked base URL and the credentials, and every
    service operation builds its parameters and path and sends a GET through
    it. The network is the send parameter (the HTTP client's Do) and JSON
    decoding the decode parameter; the result type T stands for the response
    model. */
module Analytics {
  import opened Text
  import opened Query
  import opened Http
  import opened Requests
  import CalculatedMetrics
  import Collections
  import DateRanges
  import Dimensions
  import Metrics
  import Segments
  import Users

  class Client {
    const httpClient: HttpClient
    const baseURL: Url
    const auth: Auth

    var calculatedMetrics: CalculatedMetricsService?
    var collections: CollectionsService?
    var dateRanges: DateRangesService?
    var dimensions: DimensionsService?
    var metrics: MetricsService?
    var segments: SegmentsService?
    var users: UsersService?

    constructor(httpClient: HttpClient, baseURL: Url, auth: Auth)
      ensures this.httpClient == httpClient && this.baseURL == baseURL && this.auth == auth
      ensures calculatedMetrics == null && collections == null && dateRanges == null
      ensures dimensions == null && metrics == null && segments == null && users == null
    {
      this.httpClient := httpClient;
      this.baseURL := baseURL;
      this.auth := auth;
      calculatedMetrics, collections, dateRanges := null, null, null;
      dimensions, metrics, segments, users := null, null, null, null;
    }

    /** Every service is present and sends through this client. */
    predicate Wired()
      reads this
    {
      && calculatedMetrics != null && calculatedMetrics.client == this
      && collections != null && collections.client == this
      && dateRanges != null && dateRanges.client == this
      && dimensions != null && dimensions.client == this
      && metrics != null && metrics.client == this
      && segments != null && segments.client == this
      && users != null && users.client == this
    }

    /** The last step of NewClient: one new service object per field, each
        pointing back at this client. */
    method WireServices()
      modifies this
      ensures Wired()
    {
      calculatedMetrics := new CalculatedMetricsService(this);
      collections := new CollectionsService(this);
      dateRanges := new DateRangesService(this);
      dimensions := new DimensionsService(this);
      metrics := new MetricsService(this);
      segments := new SegmentsService(this);
      users := new UsersService(this);
    }

    /** request: the service path loses one leading slash and goes under the
        base path and the company id; the parameters are added to the empty
        query; the six headers are set; the request is sent; a response
        outside 2xx comes back together with its status error. */
    method Send(m: Method, path: string, params: Params, send: (HttpClient, Request) -> Transport)
      returns (t: Transport, statusError: Option<string>)
      ensures t == send(httpClient, Request(m, RequestUrl(baseURL, auth, path, params), RequiredHeaders(auth)))
      ensures statusError.Some? <==> t.Received? && !Successful(t.reply.status)
      ensures statusError.Some? ==> statusError == CheckResponse(t.reply.status)
    {
      var relative := path;
      if HasPrefix(relative, "/") {
        relative := relative[1..];
      }
      var query := AddParams(map[], params);
      var u := Url(baseURL.scheme, baseURL.host, baseURL.path + "/" + auth.companyId + "/" + relative, query);
      var header := BuildHeaders(auth);
      t := send(httpClient, Request(m, u, header));
      statusError := None;
      if t.Received? {
        statusError := CheckResponse(t.reply.status);
      }
    }

    /** get, through apiRequest: send the request, then read and decode the
        body of a successful response. The result is that of apiRequest as
        written; unlike it, the body of an error response is closed too (the
        corrected ApiRequest of module Requests). */
    method Get<T>(path: string, params: Params, send: (HttpClient, Request) -> Transport, decode: string -> Decoded<T>)
      returns (r: Result<T, ApiError>, bodyClosed: bool)
      ensures Outcome(r, bodyClosed) == GetOutcome(httpClient, baseURL, auth, path, params, send, decode)
      ensures r == ApiRequestAsWritten(send(httpClient, GetRequest(baseURL, auth, path, params)), decode).result
    {
      var t, statusError := Send(MethodGet, path, params, send);
      if t.TransportFailed? {
        return Failure(TransportError(t.message)), false;
      }
      bodyClosed := true;
      if statusError.Some? {
        return Failure(StatusError(t.reply.status, statusError.value)), bodyClosed;
      }
      if t.reply.body.None? {
        return Failure(ReadError), bodyClosed;
      }
      var decoded := decode(t.reply.body.value);
      if decoded.Malformed? {
        return Failure(DecodeError(decoded.message)), bodyClosed;
      }
      r := Success(decoded.value);
    }
  }

  /** NewClient: chooses the HTTP client, checks the base URL, then the
      credentials, and wires the services to the new client. */
  method NewClient(config: Config, parse: string -> Option<Url>) returns (c: Client?, err: Option<string>)
    ensures err == NewClientError(config, parse)
    ensures c == null <==> err.Some?
    ensures c != null ==>
      && fresh(c) && c.Wired()
      && c.httpClient == ChooseHttpClient(config)
      && c.baseURL == VerifyBaseURL(config.baseURL, parse).value
      && c.auth == AuthOf(config)
  {
    var httpClient := DefaultClient;
    if config.httpClient.Some? {
      httpClient := config.httpClient.value;
    }
    var parsedBaseURL := VerifyBaseURL(config.baseURL, parse);
    if parsedBaseURL.Failure? {
      return null, Some(parsedBaseURL.error);
    }
    var auth := AuthOf(config);
    err := VerifyAuth(auth);
    if err.Some? {
      return null, err;
    }
    c := new Client(httpClient, parsedBaseURL.value, auth);
    c.WireServices();
  }

  class CalculatedMetricsService {
    const client: Client

    constructor(client: Client)
      ensures this.client == client
    {
      this.client := client;
    }

    /** GetAll: the list operation; the query follows CalculatedMetrics.GetAllParams. */
    method GetAll<T>(rsids: string, ownerId: string, filterByIds: string, toBeUsedInRsid: string,
                       locale: string, name: string, tagNames: string, favorite: bool,
                       approved: bool, limit: int64, page: int64, sortDirection: string,
                       sortProperty: string, expansion: seq<string>, includeType: seq<string>,
                       send: (HttpClient, Request) -> Transport, decode: string -> Decoded<T>)
      returns (r: Result<T, ApiError>)
      ensures r == GetOutcome(client.httpClient, client.baseURL, client.auth, CalculatedMetrics.ListPath,
        CalculatedMetrics.GetAllParams(CalculatedMetrics.GetAllArgs(rsids, ownerId, filterByIds, toBeUsedInRsid, locale, name, tagNames, favorite, approved, limit, page, sortDirection, sortProperty, expansion, includeType)), send, decode).result
    {
      var params := CalculatedMetrics.BuildGetAllParams(CalculatedMetrics.GetAllArgs(rsids, ownerId, filterByIds, toBeUsedInRsid, locale, name, tagNames, favorite, approved, limit, page, sortDirection, sortProperty, expansion, includeType));
      var closed;
      r, closed := client.Get(CalculatedMetrics.ListPath, params, send, decode);
    }

    /** GetByID: the id in the path; locale and expansion in the query. */
    method GetById<T>(id: string, locale: string, expansion: seq<string>, send: (HttpClient, Request) -> Transport, decode: string -> Decoded<T>)
      returns (r: Result<T, ApiError>)
      ensures r == GetOutcome(client.httpClient, client.baseURL, client.auth, CalculatedMetrics.ByIdPath(id),
        LocaleExpansionParams(locale, expansion), send, decode).result
    {
      var params := BuildLocaleExpansionParams(locale, expansion);
      var closed;
      r, closed := client.Get(CalculatedMetrics.ByIdPath(id), params, send, decode);
    }
  }

  class CollectionsService {
    const client: Client

    constructor(client: Client)
      ensures this.client == client
    {
      this.client := client;
    }

    /** GetAll: the list operation; the query follows Collections.GetAllParams. */
    method GetAll<T>(rsids: string, rsidContains: string, limit: int64, page: int64,
                       expansion: seq<string>,
                       send: (HttpClient, Request) -> Transport, decode: string -> Decoded<T>)
      returns (r: Result<T, ApiError>)
      ensures r == GetOutcome(client.httpClient, client.baseURL, client.auth, Collections.ListPath,
        Collections.GetAllParams(Collections.GetAllArgs(rsids, rsidContains, limit, page, expansion)), send, decode).result
    {
      var params := Collections.BuildGetAllParams(Collections.GetAllArgs(rsids, rsidContains, limit, page, expansion));
      var closed;
      r, closed := client.Get(Collections.ListPath, params, send, decode);
    }

    /** GetByID: the id in the path; expansion in the query. */
    method GetById<T>(id: string, expansion: seq<string>, send: (HttpClient, Request) -> Transport, decode: string -> Decoded<T>)
      returns (r: Result<T, ApiError>)
      ensures r == GetOutcome(client.httpClient, client.baseURL, client.auth, Collections.ByIdPath(id),
        ExpansionParams(expansion), send, decode).result
    {
      var params := BuildExpansionParams(expansion);
      var closed;
      r, closed := client.Get(Collections.ByIdPath(id), params, send, decode);
    }
  }

  class DateRangesService {
    const client: Client

    constructor(client: Client)
      ensures this.client == client
    {
      this.client := client;
    }

    /** GetAll: the list operation; the query follows DateRanges.GetAllParams. */
    method GetAll<T>(locale: string, filterByIds: string, limit: int64, page: int64,
                       expansion: seq<string>, includeType: seq<string>,
                       send: (HttpClient, Request) -> Transport, decode: string -> Decoded<T>)
      returns (r: Result<T, ApiError>)
      ensures r == GetOutcome(client.httpClient, client.baseURL, client.auth, DateRanges.ListPath,
        DateRanges.GetAllParams(DateRanges.GetAllArgs(locale, filterByIds, limit, page, expansion, includeType)), send, decode).result
    {
      var params := DateRanges.BuildGetAllParams(DateRanges.GetAllArgs(locale, filterByIds, limit, page, expansion, includeType));
      var closed;
      r, closed := client.Get(DateRanges.ListPath, params, send, decode);
    }

    /** GetByID: the id in the path; locale and expansion in the query. */
    method GetById<T>(id: string, locale: string, expansion: seq<string>, send: (HttpClient, Request) -> Transport, decode: string -> Decoded<T>)
      returns (r: Result<T, ApiError>)
      ensures r == GetOutcome(client.httpClient, client.baseURL, client.auth, DateRanges.ByIdPath(id),
        LocaleExpansionParams(locale, expansion), send, decode).result
    {
      var params := BuildLocaleExpansionParams(locale, expansion);
      var closed;
      r, closed := client.Get(DateRanges.ByIdPath(id), params, send, decode);
    }
  }

  class DimensionsService {
    const client: Client

    constructor(client: Client)
      ensures this.client == client
    {
      this.client := client;
    }

    /** GetAll: the list operation; the query follows Dimensions.GetAllParams. */
    method GetAll<T>(rsid: string, locale: string, segmentable: bool, reportable: bool,
                       classifiable: bool, expansion: seq<string>,
                       send: (HttpClient, Request) -> Transport, decode: string -> Decoded<T>)
      returns (r: Result<T, ApiError>)
      ensures r == GetOutcome(client.httpClient, client.baseURL, client.auth, Dimensions.ListPath,
        Dimensions.GetAllParams(Dimensions.GetAllArgs(rsid, locale, segmentable, reportable, classifiable, expansion)), send, decode).result
    {
      var params := Dimensions.BuildGetAllParams(Dimensions.GetAllArgs(rsid, locale, segmentable, reportable, classifiable, expansion));
      var closed;
      r, closed := client.Get(Dimensions.ListPath, params, send, decode);
    }

    /** GetByID: the id in the path; the report suite, locale and expansion
        in the query. */
    method GetById<T>(rsid: string, id: string, locale: string, expansion: seq<string>,
                      send: (HttpClient, Request) -> Transport, decode: string -> Decoded<T>)
      returns (r: Result<T, ApiError>)
      ensures r == GetOutcome(client.httpClient, client.baseURL, client.auth, Dimensions.ByIdPath(id),
        RsidLocaleExpansionParams(rsid, locale, expansion), send, decode).result
    {
      var params := BuildRsidLocaleExpansionParams(rsid, locale, expansion);
      var closed;
      r, closed := client.Get(Dimensions.ByIdPath(id), params, send, decode);
    }
  }

  class MetricsService {
    const client: Client

    constructor(client: Client)
      ensures this.client == client
    {
      this.client := client;
    }

    /** GetAll: the list operation; the query follows Metrics.GetAllParams. */
    method GetAll<T>(rsid: string, locale: string, segmentable: bool, expansion: seq<string>,
                       send: (HttpClient, Request) -> Transport, decode: string -> Decoded<T>)
      returns (r: Result<T, ApiError>)
      ensures r == GetOutcome(client.httpClient, client.baseURL, client.auth, Metrics.ListPath,
        Metrics.GetAllParams(Metrics.GetAllArgs(rsid, locale, segmentable, expansion)), send, decode).result
    {
      var params := Metrics.BuildGetAllParams(Metrics.GetAllArgs(rsid, locale, segmentable, expansion));
      var closed;
      r, closed := client.Get(Metrics.ListPath, params, send, decode);
    }

    /** GetByID: the id in the path; the report suite, locale and expansion
        in the query. */
    method GetById<T>(rsid: string, id: string, locale: string, expansion: seq<string>,
                      send: (HttpClient, Request) -> Transport, decode: string -> Decoded<T>)
      returns (r: Result<T, ApiError>)
      ensures r == GetOutcome(client.httpClient, client.baseURL, client.auth, Metrics.ByIdPath(id),
        RsidLocaleExpansionParams(rsid, locale, expansion), send, decode).result
    {
      var params := BuildRsidLocaleExpansionParams(rsid, locale, expansion);
      var closed;
      r, closed := client.Get(Metrics.ByIdPath(id), params, send, decode);
    }
  }

  class SegmentsService {
    const client: Client

    constructor(client: Client)
      ensures this.client == client
    {
      this.client := client;
    }

    /** GetAll: the list operation; the query follows Segments.GetAllParams. */
    method GetAll<T>(rsids: string, segmentFilter: string, locale: string, name: string,
                       tagNames: string, filterByPublishedSegments: string, limit: int64,
                       page: int64, sortDirection: string, sortProperty: string,
                       expansion: seq<string>, includeType: seq<string>,
                       send: (HttpClient, Request) -> Transport, decode: string -> Decoded<T>)
      returns (r: Result<T, ApiError>)
      ensures r == GetOutcome(client.httpClient, client.baseURL, client.auth, Segments.ListPath,
        Segments.GetAllParams(Segments.GetAllArgs(rsids, segmentFilter, locale, name, tagNames, filterByPublishedSegments, limit, page, sortDirection, sortProperty, expansion, includeType)), send, decode).result
    {
      var params := Segments.BuildGetAllParams(Segments.GetAllArgs(rsids, segmentFilter, locale, name, tagNames, filterByPublishedSegments, limit, page, sortDirection, sortProperty, expansion, includeType));
      var closed;
      r, closed := client.Get(Segments.ListPath, params, send, decode);
    }

    /** GetByID: the id in the path; locale and expansion in the query. */
    method GetById<T>(id: string, locale: string, expansion: seq<string>, send: (HttpClient, Request) -> Transport, decode: string -> Decoded<T>)
      returns (r: Result<T, ApiError>)
      ensures r == GetOutcome(client.httpClient, client.baseURL, client.auth, Segments.ByIdPath(id),
        LocaleExpansionParams(locale, expansion), send, decode).result
    {
      var params := BuildLocaleExpansionParams(locale, expansion);
      var closed;
      r, closed := client.Get(Segments.ByIdPath(id), params, send, decode);
    }
  }

  class UsersService {
    const client: Client

    constructor(client: Client)
      ensures this.client == client
    {
      this.client := client;
    }

    /** GetAll: the paged list of users. */
    method GetAll<T>(limit: int64, page: int64, send: (HttpClient, Request) -> Transport, decode: string -> Decoded<T>)
      returns (r: Result<T, ApiError>)
      ensures r == GetOutcome(client.httpClient, client.baseURL, client.auth, Users.ListPath,
        Users.GetAllParams(limit, page), send, decode).result
    {
      var params := Users.BuildGetAllParams(limit, page);
      var closed;
      r, closed := client.Get(Users.ListPath, params, send, decode);
    }

    /** GetCurrent: the current user, with no parameters. */
    method GetCurrent<T>(send: (HttpClient, Request) -> Transport, decode: string -> Decoded<T>) returns (r: Result<T, ApiError>)
      ensures r == GetOutcome(client.httpClient, client.baseURL, client.auth, Users.CurrentPath,
        map[], send, decode).result
    {
      var closed;
      r, closed := client.Get(Users.CurrentPath, map[], send, decode);
    }
  }

}
