/** The request logic of analytics/client.go, on values: checking the
    configuration, composing the request URL and headers, and turning what
    the HTTP client returns into a result or an error. The Client class in
    module Analytics runs these steps. */
module Requests {
  import opened Text
  import opened Query
  import opened Http

  datatype Result<+T, +E> = Success(value: T) | Failure(error: E)

  /** The HTTP client a Client sends through: the one the configuration
      names, or Go's default client. */
  datatype HttpClient = DefaultClient | ConfiguredClient(id: nat)

  /** Config: the user's settings; httpClient None is a nil HTTPClient. */
  datatype Config = Config(
    httpClient: Option<HttpClient>, baseURL: string,
    clientId: string, orgId: string, accessToken: string, companyId: string)

  /** The credentials a Client sends with every request. */
  datatype Auth = Auth(imsClientId: string, imsOrgId: string, imsAccessToken: string, companyId: string)

  /** NewClient's choice of HTTP client: the configured one, else the default. */
  function ChooseHttpClient(config: Config): (c: HttpClient)
    ensures config.httpClient.Some? ==> c == config.httpClient.value
    ensures config.httpClient.None? ==> c == DefaultClient
  {
    if config.httpClient.Some? then config.httpClient.value else DefaultClient
  }

  function AuthOf(config: Config): Auth
  {
    Auth(config.clientId, config.orgId, config.accessToken, config.companyId)
  }

  const MalformedURL := "malformed URL"
  const MissingScheme := "missing URL scheme"
  const MissingHost := "missing URL host"
  const MissingClientId := "missing ClientID"
  const MissingAccessToken := "missing AccessToken"
  const MissingOrgId := "missing OrgID"
  const MissingCompanyId := "missing CompanyID"

  /** verifyBaseURL: one trailing slash is dropped, then the text must parse
      (url.Parse is the parse parameter) to a URL with a scheme and a host.
      Each message names the first requirement that fails. */
  function VerifyBaseURL(baseURL: string, parse: string -> Option<Url>): (r: Result<Url, string>)
    ensures var u := parse(TrimTrailingSlash(baseURL));
      && (r.Success? <==> u.Some? && u.value.scheme != "" && u.value.host != "")
      && (r.Success? ==> r.value == u.value)
      && (r == Failure(MalformedURL) <==> u.None?)
      && (r == Failure(MissingScheme) <==> u.Some? && u.value.scheme == "")
      && (r == Failure(MissingHost) <==> u.Some? && u.value.scheme != "" && u.value.host == "")
  {
    var trimmed := TrimTrailingSlash(baseURL);
    match parse(trimmed)
    case None => Failure(MalformedURL)
    case Some(u) =>
      if u.scheme == "" then Failure(MissingScheme)
      else if u.host == "" then Failure(MissingHost)
      else Success(u)
  }

  /** A base URL with one trailing slash is checked as the same URL without it. */
  lemma VerifyBaseURLIgnoresTrailingSlash(baseURL: string, parse: string -> Option<Url>)
    requires !HasSuffix(baseURL, "/")
    ensures VerifyBaseURL(baseURL + "/", parse) == VerifyBaseURL(baseURL, parse)
  {
    assert HasSuffix(baseURL + "/", "/");
    assert TrimTrailingSlash(baseURL + "/") == baseURL;
  }

  /** The credentials are all present. */
  predicate Complete(auth: Auth)
  {
    auth.imsClientId != "" && auth.imsAccessToken != "" && auth.imsOrgId != "" && auth.companyId != ""
  }

  /** verifyAuth: the first missing credential, checked in the order client
      id, access token, organisation id, company id. */
  function VerifyAuth(auth: Auth): (err: Option<string>)
    ensures err.None? <==> Complete(auth)
    ensures err == Some(MissingClientId) <==> auth.imsClientId == ""
    ensures err == Some(MissingAccessToken) <==> auth.imsClientId != "" && auth.imsAccessToken == ""
    ensures err == Some(MissingOrgId) <==>
      auth.imsClientId != "" && auth.imsAccessToken != "" && auth.imsOrgId == ""
    ensures err == Some(MissingCompanyId) <==>
      auth.imsClientId != "" && auth.imsAccessToken != "" && auth.imsOrgId != "" && auth.companyId == ""
  {
    if auth.imsClientId == "" then Some(MissingClientId)
    else if auth.imsAccessToken == "" then Some(MissingAccessToken)
    else if auth.imsOrgId == "" then Some(MissingOrgId)
    else if auth.companyId == "" then Some(MissingCompanyId)
    else None
  }

  /** The error NewClient returns, if any: the base URL is checked before the
      credentials. */
  function NewClientError(config: Config, parse: string -> Option<Url>): Option<string>
  {
    match VerifyBaseURL(config.baseURL, parse)
    case Failure(message) => Some(message)
    case Success(_) => VerifyAuth(AuthOf(config))
  }

  /** NewClient fails exactly when the URL or the credentials are rejected,
      and a bad URL is reported even when credentials are missing too. */
  lemma NewClientErrorOrder(config: Config, parse: string -> Option<Url>)
    ensures NewClientError(config, parse).None? <==>
      VerifyBaseURL(config.baseURL, parse).Success? && Complete(AuthOf(config))
    ensures VerifyBaseURL(config.baseURL, parse).Failure? ==>
      NewClientError(config, parse) == Some(VerifyBaseURL(config.baseURL, parse).error)
    ensures VerifyBaseURL(config.baseURL, parse).Success? ==>
      NewClientError(config, parse) == VerifyAuth(AuthOf(config))
  {
  }

  /** The URL path of a request: <base path>/<company id>/<service path>, the
      service path's leading slash dropped so that no empty segment appears. */
  function ComposePath(basePath: string, companyId: string, path: string): (r: string)
    ensures HasPrefix(r, basePath + "/" + companyId + "/")
    ensures r[|basePath| + |companyId| + 2..] == TrimLeadingSlash(path)
  {
    var prefix := basePath + "/" + companyId + "/";
    var r := prefix + TrimLeadingSlash(path);
    assert r[..|prefix|] == prefix;
    r
  }

  /** A service path with or without its leading slash gives the same URL path. */
  lemma {:induction false} ComposePathLeadingSlash(basePath: string, companyId: string, path: string)
    requires !HasPrefix(path, "/")
    ensures ComposePath(basePath, companyId, "/" + path) == ComposePath(basePath, companyId, path)
  {
    assert HasPrefix("/" + path, "/");
    assert ("/" + path)[1..] == path;
    var r1 := ComposePath(basePath, companyId, "/" + path);
    var r2 := ComposePath(basePath, companyId, path);
    var n := |basePath| + |companyId| + 2;
    assert r1 == r1[..n] + r1[n..];
    assert r2 == r2[..n] + r2[n..];
  }

  /** The URL a request goes to: the base URL's scheme and host, the composed
      path, and a query made of the parameters alone (resolving the relative
      reference drops any query of the base URL; addParams then adds each
      parameter to the empty query). */
  function RequestUrl(base: Url, auth: Auth, path: string, params: Params): (u: Url)
    ensures u.scheme == base.scheme && u.host == base.host
    ensures u.query.Keys == params.Keys
    ensures forall k :: k in params ==> u.query[k] == [params[k]] && Get(u.query, k) == params[k]
  {
    FreshQueryCarriesParams(params);
    Url(base.scheme, base.host, ComposePath(base.path, auth.companyId, path), WithAdded(map[], params))
  }

  /** The header names as request passes them to Header.Set, which stores
      each under its canonical form (X-Api-Key for x-api-key, and so on). */
  const AcceptHeader := CanonicalHeaderKey("Accept")
  const ContentTypeHeader := CanonicalHeaderKey("Content-Type")
  const AuthorizationHeader := CanonicalHeaderKey("Authorization")
  const ApiKeyHeader := CanonicalHeaderKey("x-api-key")
  const OrgIdHeader := CanonicalHeaderKey("x-gw-ims-org-id")
  const CompanyIdHeader := CanonicalHeaderKey("x-proxy-global-company-id")

  /** The six headers of every request, each with one value; the access token
      goes in an Authorization header with the Bearer scheme of section 2.1
      of RFC 6750. */
  function RequiredHeaders(auth: Auth): Header
  {
    map[
      AcceptHeader := ["application/json"],
      ContentTypeHeader := ["application/json"],
      AuthorizationHeader := ["Bearer " + auth.imsAccessToken],
      ApiKeyHeader := [auth.imsClientId],
      OrgIdHeader := [auth.imsOrgId],
      CompanyIdHeader := [auth.companyId]]
  }

  /** Reads a Bearer credential: the scheme, one space, the token. */
  function BearerToken(value: string): Option<string>
  {
    if HasPrefix(value, "Bearer ") then Some(value[7..]) else None
  }

  /** The six names are distinct (their lengths differ), so no Set overwrites
      another. */
  lemma RequiredHeadersDistinct(auth: Auth)
    ensures |RequiredHeaders(auth)| == 6
  {
    assert RequiredHeaders(auth).Keys == {AcceptHeader, ContentTypeHeader, AuthorizationHeader,
      ApiKeyHeader, OrgIdHeader, CompanyIdHeader};
  }

  /** Each credential reads back from its header; the access token from the
      Authorization header. */
  lemma RequiredHeadersCarryCredentials(auth: Auth)
    ensures var h := RequiredHeaders(auth);
      && h[AcceptHeader] == h[ContentTypeHeader] == ["application/json"]
      && BearerToken(h[AuthorizationHeader][0]) == Some(auth.imsAccessToken)
      && h[ApiKeyHeader] == [auth.imsClientId] && h[OrgIdHeader] == [auth.imsOrgId]
      && h[CompanyIdHeader] == [auth.companyId]
  {
    assert ("Bearer " + auth.imsAccessToken)[7..] == auth.imsAccessToken;
  }

  /** The client-id header goes out as X-Api-Key. */
  lemma ApiKeyHeaderSpelling()
    ensures ApiKeyHeader == "X-Api-Key"
  {
  }

  /** request's header setting: six Header.Set calls on the new request's
      empty header. */
  method BuildHeaders(auth: Auth) returns (h: Header)
    ensures h == RequiredHeaders(auth)
  {
    h := map[];
    h := SetHeader(h, "Accept", "application/json");
    h := SetHeader(h, "Content-Type", "application/json");
    h := SetHeader(h, "Authorization", "Bearer " + auth.imsAccessToken);
    h := SetHeader(h, "x-api-key", auth.imsClientId);
    h := SetHeader(h, "x-gw-ims-org-id", auth.imsOrgId);
    h := SetHeader(h, "x-proxy-global-company-id", auth.companyId);
  }

  /** The request for a GET of path with params (the client passes no body). */
  function GetRequest(base: Url, auth: Auth, path: string, params: Params): Request
  {
    Request(MethodGet, RequestUrl(base, auth, path, params), RequiredHeaders(auth))
  }

  /** What json.Unmarshal makes of a body: the decoded value, or an error. */
  datatype Decoded<+T> = Decoded(value: T) | Malformed(message: string)

  /** The errors apiRequest returns. */
  datatype ApiError =
    | TransportError(message: string)
    | StatusError(status: int64, message: string)
    | ReadError
    | DecodeError(message: string)

  /** The result of apiRequest, and whether the response body, if there was
      one, was closed. */
  datatype Outcome<+T> = Outcome(result: Result<T, ApiError>, bodyClosed: bool)

  /** apiRequest as written: the close of the body is deferred only after
      request returned without error, and request returns the response
      together with an error for a status outside 2xx, so the body of such a
      response is never closed. */
  function ApiRequestAsWritten<T>(t: Transport, decode: string -> Decoded<T>): (o: Outcome<T>)
    ensures o.bodyClosed <==> t.Received? && Successful(t.reply.status)
  {
    match t
    case TransportFailed(message) => Outcome(Failure(TransportError(message)), false)
    case Received(reply) =>
      match CheckResponse(reply.status)
      case Some(message) => Outcome(Failure(StatusError(reply.status, message)), false)
      case None => Outcome(Decode(reply, decode), true)
  }

  /** Reading and decoding a successful response's body. */
  function Decode<T>(reply: Reply, decode: string -> Decoded<T>): Result<T, ApiError>
  {
    match reply.body
    case None => Failure(ReadError)
    case Some(text) =>
      match decode(text)
      case Malformed(message) => Failure(DecodeError(message))
      case Decoded(value) => Success(value)
  }

  /** A 404 response shows it: its error is returned and its body left open. */
  lemma ErrorResponseBodyLeftOpen<T>(decode: string -> Decoded<T>)
    ensures var o := ApiRequestAsWritten(Received(Reply(404, Some(""))), decode);
      o.result.Failure? && o.result.error.StatusError? && !o.bodyClosed
  {
  }

  /** apiRequest with the body closed on every path that received a response:
      the same results, and no response body is left open. */
  function ApiRequest<T>(t: Transport, decode: string -> Decoded<T>): (o: Outcome<T>)
    ensures o.bodyClosed <==> t.Received?
    ensures o.result.Success? <==>
      t.Received? && Successful(t.reply.status) && t.reply.body.Some?
      && decode(t.reply.body.value).Decoded?
    ensures o.result.Success? ==> o.result.value == decode(t.reply.body.value).value
  {
    match t
    case TransportFailed(message) => Outcome(Failure(TransportError(message)), false)
    case Received(reply) =>
      match CheckResponse(reply.status)
      case Some(message) => Outcome(Failure(StatusError(reply.status, message)), true)
      case None => Outcome(Decode(reply, decode), true)
  }

  /** Closing the error body changes no result. */
  lemma ApiRequestKeepsResults<T>(t: Transport, decode: string -> Decoded<T>)
    ensures ApiRequest(t, decode).result == ApiRequestAsWritten(t, decode).result
  {
  }

  /** Errors come in pipeline order: a transport failure is reported as such;
      a status outside 2xx is reported with its code whatever the body holds,
      so the decoder is never consulted; only then do read and decode errors
      appear. */
  lemma ApiRequestErrorOrder<T>(t: Transport, decode: string -> Decoded<T>, other: string -> Decoded<T>)
    ensures t.TransportFailed? ==> ApiRequest(t, decode).result == Failure(TransportError(t.message))
    ensures t.Received? && !Successful(t.reply.status) ==>
      && ApiRequest(t, decode).result == Failure(StatusError(t.reply.status, CheckResponse(t.reply.status).value))
      && ApiRequest(t, decode).result == ApiRequest(t, other).result
    ensures t.Received? && Successful(t.reply.status) && t.reply.body.None? ==>
      ApiRequest(t, decode).result == Failure(ReadError)
  {
  }

  /** What a GET of path with params gives when send is the network: the
      outcome of apiRequest for the response to GetRequest. */
  function GetOutcome<T>(httpClient: HttpClient, base: Url, auth: Auth, path: string, params: Params,
                         send: (HttpClient, Request) -> Transport, decode: string -> Decoded<T>): Outcome<T>
  {
    ApiRequest(send(httpClient, GetRequest(base, auth, path, params)), decode)
  }
}
