# aa-client-go, modelled in Dafny

aa-client-go is a thin Go client for the Adobe Analytics 2.0 API. A `Client`
holds an HTTP client, a checked base URL and four credentials. Each of its
services (calculated metrics, collections, date ranges, dimensions, metrics,
segments and users) turns typed arguments into a path and a query-parameter
map, then sends a GET request. Every request carries the same six headers.
Only a 2xx status counts as success. A response that passes is read and
decoded from JSON. The example programs also ship a retry policy,
`rateLimitPolicy`, for a retrying HTTP client.

This project models that core and proves the following:

- **Client construction** (module `Requests`, class `Analytics.Client`):
  - the base-URL checks and the credential checks, each a chain where the first failure names the error;
  - the URL check comes before the credential check;
  - the service wiring of `NewClient`.
- **Request assembly**:
  - the path is `<base path>/<company id>/<service path>`, with one leading slash dropped from the service path;
  - `addParams` is a loop over the parameter map that appends to the URL query;
  - the header map is built with `Header.Set`, including Go's canonical spelling of header names;
  - `checkResponse` accepts exactly the 2xx statuses.
- **The error flow of `apiRequest`**:
  - a transport error, then a status error, then a read error, then a decode error;
  - the decoder is never consulted after a status error.
- **The per-resource parameter builders**, one module per service file:
  - a specification function with one lemma per key, stating when that key is sent and what it holds;
  - an imperative builder proved equal to the specification function;
  - a decoder proved to invert it;
  - the smallest and largest key sets.
- **The retry policy** (module `Retry`), as a pure function. The redirect
  regular expression is a computable matcher, proved equivalent to its
  definition.

Modules:
- `Text`: Go's `strconv` and `strings` helpers and their inverses.
- `Query`: query keys, parameter maps and `url.Values`.
- `Http`: methods, URLs, headers and responses.
- `Requests`: the checks and request logic of analytics/client.go, on values.
- `Analytics`: the `Client` class, `NewClient` and the seven service classes.
- One module per resource file: `CalculatedMetrics`, `Segments`, `Dimensions`, `DateRanges`, `Collections`, `Metrics`, `Users`.
- `Retry`: the retry policy.

Outside calls are parameters of the model:
- the network (`httpClient.Do`) is a function `send` from a client and a request to a `Transport` outcome;
- JSON decoding is a function `decode`;
- `url.Parse` is a function `parse`.

Each service method promises the outcome of `GetOutcome` for its path and
parameters. That outcome is a `Result`: a value, or an error and no value.
This matches the `(result, nil)` or `(nil, err)` pairs of the Go methods.

## Model

| member | source | states |
|---|---|---|
| Text.FormatInt | analytics/calculatedmetrics.go:58-59 | strconv.FormatInt(n, 10) reads back as n, as an integer and as an int64; it starts with a minus sign iff n is negative |
| Text.FormatBool | analytics/calculatedmetrics.go:56-57 | strconv.FormatBool(b) reads back as b through ParseBool |
| Text.Split | analytics/calculatedmetrics.go:66-67 | splitting is never empty, and joining the parts with the separator gives the text back |
| Text.SplitJoin | analytics/calculatedmetrics.go:66-67 | a non-empty list whose elements hold no separator splits back from its joined text |
| Text.JoinNeedsSeparatorFreeElements | analytics/calculatedmetrics.go:66-67 | an element holding a comma makes two different lists join to the same parameter value |
| Text.Contains | examples/utils/utils.go:101-103 | the scheme check's substring match: true iff the pattern occurs at some position |
| Text.TrimTrailingSlash | analytics/client.go:105-107 | exactly one trailing slash is removed, and only if there is one |
| Text.TrimTrailingSlashOnce | analytics/client.go:105-107 | the trimmed text still ends in a slash iff the original ended in two |
| Text.TrimLeadingSlash | analytics/client.go:180-182 | exactly one leading slash is removed, and only if there is one |
| Query.SpellingReadsBack | analytics/calculatedmetrics.go:34-71 | every query key is recognised from its wire spelling, so no two keys share one |
| Query.Put | analytics/calculatedmetrics.go:56 | an unconditional assignment sets the key to the value and leaves every other key as it was |
| Query.PutIfNonEmpty | analytics/calculatedmetrics.go:35-37 | a guarded assignment sets the key iff the value is non-empty and leaves every other key as it was |
| Query.PutJoined | analytics/calculatedmetrics.go:66-68 | a guarded join sets the key to the comma-joined list iff the list is non-empty and leaves every other key as it was |
| Query.SetIfNonEmpty | analytics/calculatedmetrics.go:35-37 | the in-place guarded assignment gives PutIfNonEmpty's map |
| Query.SetJoined | analytics/calculatedmetrics.go:66-68 | the in-place guarded join gives PutJoined's map |
| Query.NonEmptyReadsBack | analytics/calculatedmetrics.go:35-37 | a string filter sent by the non-empty rule reads back as the argument, "" when absent |
| Query.JoinedReadsBack | analytics/calculatedmetrics.go:66-68 | a list sent by the join rule reads back as the list when no element holds a comma |
| Query.LocaleExpansionParams | analytics/calculatedmetrics.go:84-90 | the by-id query of calculated metrics, segments and date ranges: keys within {locale, expansion}; locale iff non-empty; expansion joined iff non-empty |
| Query.BuildLocaleExpansionParams | analytics/calculatedmetrics.go:84-90 | the in-place by-id builder gives LocaleExpansionParams |
| Query.RsidLocaleExpansionParams | analytics/dimensions.go:52-59 | the by-id query of dimensions and metrics: keys within {rsid, locale, expansion}; rsid always; locale and expansion iff non-empty |
| Query.BuildRsidLocaleExpansionParams | analytics/metrics.go:50-57 | the in-place by-id builder gives RsidLocaleExpansionParams |
| Query.ExpansionParams | analytics/collections.go:53-56 | the by-id query of collections: keys within {expansion}; expansion joined iff non-empty |
| Query.BuildExpansionParams | analytics/collections.go:53-56 | the in-place by-id builder gives ExpansionParams |
| Query.ByIdParamsReadBack | analytics/segments.go:75-81 | the three by-id queries read back as their arguments (comma-free expansion) |
| Query.AddParams | analytics/client.go:220-229 | the loop over the map in any order adds each parameter with Add, giving WithAdded |
| Query.AddKeepsExistingValues | analytics/client.go:223-225 | values already in the query are kept; each parameter's key gains its value at the end of its list |
| Query.FreshQueryCarriesParams | analytics/client.go:186-188 | from the empty query of the resolved URL, the query holds exactly the parameters, one value each, read back by Get |
| Http.MethodName | analytics/client.go:147-149 | get sends the GET method |
| Http.CanonicalHeaderKeyIdempotent | analytics/client.go:198-203 | the canonical form of a header name is its own canonical form |
| Http.CanonicalHeaderKeyIgnoresCase | analytics/client.go:198-203 | header names differing only in letter case get the same canonical key |
| Http.SetHeader | analytics/client.go:198-203 | Header.Set stores exactly one value under the canonical key and keeps the other keys |
| Http.CheckResponse | analytics/client.go:234-241 | no error iff the status is in 200..299; otherwise the message is the fixed prefix followed by the status, which reads back |
| Requests.ChooseHttpClient | analytics/client.go:62-67 | the configured HTTP client when there is one, the default client otherwise |
| Requests.VerifyBaseURL | analytics/client.go:104-122 | after one trailing slash is trimmed: malformed iff the parse fails; missing scheme iff parsed with no scheme; missing host iff scheme but no host; otherwise the parsed URL |
| Requests.VerifyBaseURLIgnoresTrailingSlash | analytics/client.go:105-109 | a base URL with one trailing slash is checked as the URL without it |
| Requests.VerifyAuth | analytics/client.go:125-139 | no error iff all four credentials are present; each message iff its field is the first empty one in the order client id, access token, org id, company id |
| Requests.NewClientErrorOrder | analytics/client.go:69-83 | NewClient fails iff the URL or the credentials are rejected; a URL error wins over a credential error |
| Requests.ComposePath | analytics/client.go:180-186 | the path is base path, "/", company id, "/", then the service path with one leading slash dropped |
| Requests.ComposePathLeadingSlash | analytics/client.go:180-182 | a service path with or without its leading slash gives the same request path |
| Requests.RequestUrl | analytics/client.go:186-188 | the request URL keeps the base URL's scheme and host, and its query holds exactly the parameters |
| Requests.RequiredHeadersDistinct | analytics/client.go:198-203 | the six headers have distinct canonical names, so none overwrites another |
| Requests.RequiredHeadersCarryCredentials | analytics/client.go:198-203 | Accept and Content-Type are application/json; the Authorization value reads back as the access token under the Bearer scheme; the three other headers carry client id, org id and company id |
| Requests.ApiKeyHeaderSpelling | analytics/client.go:201 | x-api-key is sent under its canonical spelling X-Api-Key |
| Requests.BuildHeaders | analytics/client.go:198-203 | six Header.Set calls on an empty header give RequiredHeaders |
| Requests.ApiRequestAsWritten | analytics/client.go:157-175 | as written: the body is closed iff a response arrived with a 2xx status |
| Requests.ErrorResponseBodyLeftOpen | analytics/client.go:158-162 | a 404 response is returned as a status error with its body never closed |
| Requests.ApiRequest | analytics/client.go:157-175 | every response received has its body closed; success iff a 2xx response whose body reads and decodes, with the decoded value |
| Requests.ApiRequestKeepsResults | analytics/client.go:157-175 | closing the error body changes no result |
| Requests.ApiRequestErrorOrder | analytics/client.go:158-172 | a transport failure is reported as such; a status outside 2xx is reported with its message whatever the decoder; a 2xx body that fails to read gives the read error |
| Analytics.Client.constructor | analytics/client.go:85-89 | the client holds the chosen HTTP client, the parsed base URL and the credentials; no service is set yet |
| Analytics.Client.WireServices | analytics/client.go:91-98 | every service field holds a service that points back at this client |
| Analytics.NewClient | analytics/client.go:61-101 | the error is NewClientError; the client is nil iff there is an error; otherwise a new, wired client with the chosen HTTP client, the verified URL and the credentials |
| Analytics.Client.Send | analytics/client.go:178-217 | request sends to the composed URL with the six headers; the status error is present iff a response outside 2xx arrived, and is checkResponse's |
| Analytics.Client.Get | analytics/client.go:147-149 | get returns exactly the result apiRequest as written gives for the GET request; it follows the corrected apiRequest of the finding below, so it also closes the body of an error response, which the source leaves open |
| Analytics.CalculatedMetricsService.constructor | analytics/client.go:91 | the service sends through the given client |
| Analytics.CalculatedMetricsService.GetAll | analytics/calculatedmetrics.go:28-79 | a GET of /calculatedmetrics with CalculatedMetrics.GetAllParams; a value or an error |
| Analytics.CalculatedMetricsService.GetById | analytics/calculatedmetrics.go:83-98 | a GET of /calculatedmetrics/<id> with LocaleExpansionParams; a value or an error |
| Analytics.CollectionsService.constructor | analytics/client.go:92 | the service sends through the given client |
| Analytics.CollectionsService.GetAll | analytics/collections.go:28-48 | a GET of /collections/suites with Collections.GetAllParams; a value or an error |
| Analytics.CollectionsService.GetById | analytics/collections.go:52-64 | a GET of /collections/suites/<id> with ExpansionParams; a value or an error |
| Analytics.DateRangesService.constructor | analytics/client.go:93 | the service sends through the given client |
| Analytics.DateRangesService.GetAll | analytics/dateranges.go:28-51 | a GET of /dateranges with DateRanges.GetAllParams; a value or an error |
| Analytics.DateRangesService.GetById | analytics/dateranges.go:55-70 | a GET of /dateranges/<id>, the id unvalidated, with LocaleExpansionParams; a value or an error |
| Analytics.DimensionsService.constructor | analytics/client.go:94 | the service sends through the given client |
| Analytics.DimensionsService.GetAll | analytics/dimensions.go:28-47 | a GET of /dimensions with Dimensions.GetAllParams; a value or an error |
| Analytics.DimensionsService.GetById | analytics/dimensions.go:51-67 | a GET of /dimensions/<id> with rsid kept in RsidLocaleExpansionParams; a value or an error |
| Analytics.MetricsService.constructor | analytics/client.go:95 | the service sends through the given client |
| Analytics.MetricsService.GetAll | analytics/metrics.go:28-45 | a GET of /metrics with Metrics.GetAllParams; a value or an error |
| Analytics.MetricsService.GetById | analytics/metrics.go:49-65 | a GET of /metrics/<id> with rsid kept in RsidLocaleExpansionParams; a value or an error |
| Analytics.SegmentsService.constructor | analytics/client.go:97 | the service sends through the given client |
| Analytics.SegmentsService.GetAll | analytics/segments.go:28-70 | a GET of /segments with Segments.GetAllParams; a value or an error |
| Analytics.SegmentsService.GetById | analytics/segments.go:74-90 | a GET of /segments/<id> with LocaleExpansionParams; a value or an error |
| Analytics.UsersService.constructor | analytics/client.go:98 | the service sends through the given client |
| Analytics.UsersService.GetAll | analytics/users.go:26-37 | a GET of /users with Users.GetAllParams; a value or an error |
| Analytics.UsersService.GetCurrent | analytics/users.go:41-48 | a GET of /users/me with the empty parameter map; a value or an error |
| Users.GetAllParams | analytics/users.go:27-29 | the keys are exactly {limit, page}, each reading back as its base-10 argument |
| Users.BuildGetAllParams | analytics/users.go:27-29 | the two assignments give GetAllParams |
| Users.GetAllParamsInjective | analytics/users.go:27-29 | distinct paging arguments give distinct queries |
| Retry.MatchRedirectsSound | examples/utils/utils.go:80 | a message the matcher accepts matches `stopped after \d+ redirects\z` |
| Retry.MatchRedirectsComplete | examples/utils/utils.go:80 | a message matching the pattern is accepted by the matcher |
| Retry.MatchRedirectsFrom | examples/utils/utils.go:80 | a match at any position is found by the matcher's look at the end of the text |
| Retry.MatchRedirectsCorrect | examples/utils/utils.go:80 | the matcher accepts exactly the messages matching the pattern |
| Retry.RateLimitPolicy | examples/utils/utils.go:75-124 | a context error stops with that error and nothing else returns one; a url.Error is retried iff it is not redirects-exhausted, bad-scheme or unknown-authority; other errors are retried; a response is retried iff its status is 0, 429 or at least 500 but not 501 |
| Retry.RetriedResponsesAreErrors | examples/utils/utils.go:119-121 | a retried response has a status checkResponse rejects |
| Retry.OtherErrorsRetried | examples/utils/utils.go:93-113 | an error that is not a url.Error is retried whatever its message |
| Retry.RedirectLimitNotRetried | examples/utils/utils.go:94-98 | a url.Error message ending in "stopped after N redirects", for any non-empty digit run N and whatever comes before it, is not retried |
| Retry.StatusExamples | examples/utils/utils.go:119-123 | 429, 503, 0 and 999 are retried; 501, 404 and 200 are not |
| CalculatedMetrics.ByIdPath | analytics/calculatedmetrics.go:93 | the by-id path is "/calculatedmetrics/" followed by the id, unchanged |
| CalculatedMetrics.BuildGetAllParams | analytics/calculatedmetrics.go:34-71 | the insertions one by one build exactly GetAllParams, the map the per-key lemmas describe |
| CalculatedMetrics.GetAllSendsRsids | analytics/calculatedmetrics.go:35-37 | key rsids is present iff rsids is non-empty, holding it unchanged, and read back as rsids |
| CalculatedMetrics.GetAllSendsOwnerId | analytics/calculatedmetrics.go:38-40 | key ownerId is present iff ownerId is non-empty, holding it unchanged, and read back as ownerId |
| CalculatedMetrics.GetAllSendsFilterByIds | analytics/calculatedmetrics.go:41-43 | key filterByIds is present iff filterByIds is non-empty, holding it unchanged, and read back as filterByIds |
| CalculatedMetrics.GetAllSendsToBeUsedInRsid | analytics/calculatedmetrics.go:44-46 | key toBeUsedInRsid is present iff toBeUsedInRsid is non-empty, holding it unchanged, and read back as toBeUsedInRsid |
| CalculatedMetrics.GetAllSendsLocale | analytics/calculatedmetrics.go:47-49 | key locale is present iff locale is non-empty, holding it unchanged, and read back as locale |
| CalculatedMetrics.GetAllSendsName | analytics/calculatedmetrics.go:50-52 | key name is present iff name is non-empty, holding it unchanged, and read back as name |
| CalculatedMetrics.GetAllSendsTagNames | analytics/calculatedmetrics.go:53-55 | key tagNames is present iff tagNames is non-empty, holding it unchanged, and read back as tagNames |
| CalculatedMetrics.GetAllSendsFavorite | analytics/calculatedmetrics.go:56 | key favorite is always present, holding FormatBool(favorite), and read back by ParseBool as favorite |
| CalculatedMetrics.GetAllSendsApproved | analytics/calculatedmetrics.go:57 | key approved is always present, holding FormatBool(approved), and read back by ParseBool as approved |
| CalculatedMetrics.GetAllSendsLimit | analytics/calculatedmetrics.go:58 | key limit is always present, holding the base-10 FormatInt(limit), and read back as limit |
| CalculatedMetrics.GetAllSendsPage | analytics/calculatedmetrics.go:59 | key page is always present, holding the base-10 FormatInt(page), and read back as page |
| CalculatedMetrics.GetAllSendsSortDirection | analytics/calculatedmetrics.go:60-62 | key sortDirection is present iff sortDirection is non-empty, holding it unchanged, and read back as sortDirection |
| CalculatedMetrics.GetAllSendsSortProperty | analytics/calculatedmetrics.go:63-65 | key sortProperty is present iff sortProperty is non-empty, holding it unchanged, and read back as sortProperty |
| CalculatedMetrics.GetAllSendsExpansion | analytics/calculatedmetrics.go:66-68 | key expansion is present iff the list expansion is non-empty, holding its elements joined by "," |
| CalculatedMetrics.GetAllSendsIncludeType | analytics/calculatedmetrics.go:69-71 | key includeType is present iff the list includeType is non-empty, holding its elements joined by "," |
| CalculatedMetrics.GetAllSendsNothingElse | analytics/calculatedmetrics.go:34-71 | no key outside the 15 named is ever sent |
| CalculatedMetrics.GetAllParamsFollowRules | analytics/calculatedmetrics.go:34-71 | every key is present exactly when its per-key rule sends a value, with that value |
| CalculatedMetrics.GetAllFewestKeys | analytics/calculatedmetrics.go:34-71 | with every optional string and list empty the key set is exactly {favorite, approved, limit, page} |
| CalculatedMetrics.GetAllMostKeys | analytics/calculatedmetrics.go:34-71 | with every optional string and list non-empty all 15 keys are sent, and no other |
| CalculatedMetrics.DecodeGetAllParams | analytics/calculatedmetrics.go:34-71 | reading the query back (strings, ParseBool, ParseInt, comma split) gives the arguments again, when no list element holds a comma |
| CalculatedMetrics.GetAllParamsInjective | analytics/calculatedmetrics.go:34-71 | distinct arguments give distinct queries (comma-free lists) |
| Segments.ByIdPath | analytics/segments.go:84 | the by-id path is "/segments/" followed by the id, unchanged |
| Segments.BuildGetAllParams | analytics/segments.go:32-62 | the insertions one by one build exactly GetAllParams, the map the per-key lemmas describe |
| Segments.GetAllSendsRsids | analytics/segments.go:33 | key rsids is always present, holding rsids unchanged, and read back as rsids |
| Segments.GetAllSendsSegmentFilter | analytics/segments.go:34-36 | key segmentFilter is present iff segmentFilter is non-empty, holding it unchanged, and read back as segmentFilter |
| Segments.GetAllSendsLocale | analytics/segments.go:37-39 | key locale is present iff locale is non-empty, holding it unchanged, and read back as locale |
| Segments.GetAllSendsName | analytics/segments.go:40-42 | key name is present iff name is non-empty, holding it unchanged, and read back as name |
| Segments.GetAllSendsTagNames | analytics/segments.go:43-45 | key tagNames is present iff tagNames is non-empty, holding it unchanged, and read back as tagNames |
| Segments.GetAllSendsFilterByPublishedSegments | analytics/segments.go:46-48 | key filterByPublishedSegments is present iff filterByPublishedSegments is non-empty, holding it unchanged, and read back as filterByPublishedSegments |
| Segments.GetAllSendsLimit | analytics/segments.go:49 | key limit is always present, holding the base-10 FormatInt(limit), and read back as limit |
| Segments.GetAllSendsPage | analytics/segments.go:50 | key page is always present, holding the base-10 FormatInt(page), and read back as page |
| Segments.GetAllSendsSortDirection | analytics/segments.go:51-53 | key sortDirection is present iff sortDirection is non-empty, holding it unchanged, and read back as sortDirection |
| Segments.GetAllSendsSortProperty | analytics/segments.go:54-56 | key sortProperty is present iff sortProperty is non-empty, holding it unchanged, and read back as sortProperty |
| Segments.GetAllSendsExpansion | analytics/segments.go:57-59 | key expansion is present iff the list expansion is non-empty, holding its elements joined by "," |
| Segments.GetAllSendsIncludeType | analytics/segments.go:60-62 | key includeType is present iff the list includeType is non-empty, holding its elements joined by "," |
| Segments.GetAllSendsNothingElse | analytics/segments.go:32-62 | no key outside the 12 named is ever sent |
| Segments.GetAllParamsFollowRules | analytics/segments.go:32-62 | every key is present exactly when its per-key rule sends a value, with that value |
| Segments.GetAllFewestKeys | analytics/segments.go:32-62 | with every optional string and list empty the key set is exactly {rsids, limit, page} |
| Segments.GetAllMostKeys | analytics/segments.go:32-62 | with every optional string and list non-empty all 12 keys are sent, and no other |
| Segments.DecodeGetAllParams | analytics/segments.go:32-62 | reading the query back (strings, ParseBool, ParseInt, comma split) gives the arguments again, when no list element holds a comma |
| Segments.GetAllParamsInjective | analytics/segments.go:32-62 | distinct arguments give distinct queries (comma-free lists) |
| Dimensions.ByIdPath | analytics/dimensions.go:62 | the by-id path is "/dimensions/" followed by the id, unchanged |
| Dimensions.BuildGetAllParams | analytics/dimensions.go:29-39 | the insertions one by one build exactly GetAllParams, the map the per-key lemmas describe |
| Dimensions.GetAllSendsRsid | analytics/dimensions.go:30 | key rsid is always present, holding rsid unchanged, and read back as rsid |
| Dimensions.GetAllSendsLocale | analytics/dimensions.go:31-33 | key locale is present iff locale is non-empty, holding it unchanged, and read back as locale |
| Dimensions.GetAllSendsSegmentable | analytics/dimensions.go:34 | key segmentable is always present, holding FormatBool(segmentable), and read back by ParseBool as segmentable |
| Dimensions.GetAllSendsReportable | analytics/dimensions.go:35 | key reportable is always present, holding FormatBool(reportable), and read back by ParseBool as reportable |
| Dimensions.GetAllSendsClassifiable | analytics/dimensions.go:36 | key classifiable is always present, holding FormatBool(classifiable), and read back by ParseBool as classifiable |
| Dimensions.GetAllSendsExpansion | analytics/dimensions.go:37-39 | key expansion is present iff the list expansion is non-empty, holding its elements joined by "," |
| Dimensions.GetAllSendsNothingElse | analytics/dimensions.go:29-39 | no key outside the 6 named is ever sent |
| Dimensions.GetAllParamsFollowRules | analytics/dimensions.go:29-39 | every key is present exactly when its per-key rule sends a value, with that value |
| Dimensions.GetAllFewestKeys | analytics/dimensions.go:29-39 | with every optional string and list empty the key set is exactly {rsid, segmentable, reportable, classifiable} |
| Dimensions.GetAllMostKeys | analytics/dimensions.go:29-39 | with every optional string and list non-empty all 6 keys are sent, and no other |
| Dimensions.DecodeGetAllParams | analytics/dimensions.go:29-39 | reading the query back (strings, ParseBool, ParseInt, comma split) gives the arguments again, when no list element holds a comma |
| Dimensions.GetAllParamsInjective | analytics/dimensions.go:29-39 | distinct arguments give distinct queries (comma-free lists) |
| DateRanges.ByIdPath | analytics/dateranges.go:65 | the by-id path is "/dateranges/" followed by the id, unchanged |
| DateRanges.BuildGetAllParams | analytics/dateranges.go:29-43 | the insertions one by one build exactly GetAllParams, the map the per-key lemmas describe |
| DateRanges.GetAllSendsLocale | analytics/dateranges.go:30-32 | key locale is present iff locale is non-empty, holding it unchanged, and read back as locale |
| DateRanges.GetAllSendsFilterByIds | analytics/dateranges.go:33-35 | key filterByIds is present iff filterByIds is non-empty, holding it unchanged, and read back as filterByIds |
| DateRanges.GetAllSendsLimit | analytics/dateranges.go:36 | key limit is always present, holding the base-10 FormatInt(limit), and read back as limit |
| DateRanges.GetAllSendsPage | analytics/dateranges.go:37 | key page is always present, holding the base-10 FormatInt(page), and read back as page |
| DateRanges.GetAllSendsExpansion | analytics/dateranges.go:38-40 | key expansion is present iff the list expansion is non-empty, holding its elements joined by "," |
| DateRanges.GetAllSendsIncludeType | analytics/dateranges.go:41-43 | key includeType is present iff the list includeType is non-empty, holding its elements joined by "," |
| DateRanges.GetAllSendsNothingElse | analytics/dateranges.go:29-43 | no key outside the 6 named is ever sent |
| DateRanges.GetAllParamsFollowRules | analytics/dateranges.go:29-43 | every key is present exactly when its per-key rule sends a value, with that value |
| DateRanges.GetAllFewestKeys | analytics/dateranges.go:29-43 | with every optional string and list empty the key set is exactly {limit, page} |
| DateRanges.GetAllMostKeys | analytics/dateranges.go:29-43 | with every optional string and list non-empty all 6 keys are sent, and no other |
| DateRanges.DecodeGetAllParams | analytics/dateranges.go:29-43 | reading the query back (strings, ParseBool, ParseInt, comma split) gives the arguments again, when no list element holds a comma |
| DateRanges.GetAllParamsInjective | analytics/dateranges.go:29-43 | distinct arguments give distinct queries (comma-free lists) |
| Collections.ByIdPath | analytics/collections.go:59 | the by-id path is "/collections/suites/" followed by the id, unchanged |
| Collections.BuildGetAllParams | analytics/collections.go:29-40 | the insertions one by one build exactly GetAllParams, the map the per-key lemmas describe |
| Collections.GetAllSendsRsids | analytics/collections.go:30-32 | key rsids is present iff rsids is non-empty, holding it unchanged, and read back as rsids |
| Collections.GetAllSendsRsidContains | analytics/collections.go:33-35 | key rsidContains is present iff rsidContains is non-empty, holding it unchanged, and read back as rsidContains |
| Collections.GetAllSendsLimit | analytics/collections.go:36 | key limit is always present, holding the base-10 FormatInt(limit), and read back as limit |
| Collections.GetAllSendsPage | analytics/collections.go:37 | key page is always present, holding the base-10 FormatInt(page), and read back as page |
| Collections.GetAllSendsExpansion | analytics/collections.go:38-40 | key expansion is present iff the list expansion is non-empty, holding its elements joined by "," |
| Collections.GetAllSendsNothingElse | analytics/collections.go:29-40 | no key outside the 5 named is ever sent |
| Collections.GetAllParamsFollowRules | analytics/collections.go:29-40 | every key is present exactly when its per-key rule sends a value, with that value |
| Collections.GetAllFewestKeys | analytics/collections.go:29-40 | with every optional string and list empty the key set is exactly {limit, page} |
| Collections.GetAllMostKeys | analytics/collections.go:29-40 | with every optional string and list non-empty all 5 keys are sent, and no other |
| Collections.DecodeGetAllParams | analytics/collections.go:29-40 | reading the query back (strings, ParseBool, ParseInt, comma split) gives the arguments again, when no list element holds a comma |
| Collections.GetAllParamsInjective | analytics/collections.go:29-40 | distinct arguments give distinct queries (comma-free lists) |
| Metrics.ByIdPath | analytics/metrics.go:60 | the by-id path is "/metrics/" followed by the id, unchanged |
| Metrics.BuildGetAllParams | analytics/metrics.go:29-37 | the insertions one by one build exactly GetAllParams, the map the per-key lemmas describe |
| Metrics.GetAllSendsRsid | analytics/metrics.go:30 | key rsid is always present, holding rsid unchanged, and read back as rsid |
| Metrics.GetAllSendsLocale | analytics/metrics.go:31-33 | key locale is present iff locale is non-empty, holding it unchanged, and read back as locale |
| Metrics.GetAllSendsSegmentable | analytics/metrics.go:34 | key segmentable is always present, holding FormatBool(segmentable), and read back by ParseBool as segmentable |
| Metrics.GetAllSendsExpansion | analytics/metrics.go:35-37 | key expansion is present iff the list expansion is non-empty, holding its elements joined by "," |
| Metrics.GetAllSendsNothingElse | analytics/metrics.go:29-37 | no key outside the 4 named is ever sent |
| Metrics.GetAllParamsFollowRules | analytics/metrics.go:29-37 | every key is present exactly when its per-key rule sends a value, with that value |
| Metrics.GetAllFewestKeys | analytics/metrics.go:29-37 | with every optional string and list empty the key set is exactly {rsid, segmentable} |
| Metrics.GetAllMostKeys | analytics/metrics.go:29-37 | with every optional string and list non-empty all 4 keys are sent, and no other |
| Metrics.DecodeGetAllParams | analytics/metrics.go:29-37 | reading the query back (strings, ParseBool, ParseInt, comma split) gives the arguments again, when no list element holds a comma |
| Metrics.GetAllParamsInjective | analytics/metrics.go:29-37 | distinct arguments give distinct queries (comma-free lists) |

## Left out

- `url.Parse`: its grammar (RFC 3986) is the `parse` parameter of `VerifyBaseURL` and `NewClient`. The model sees only its result: no URL, or a scheme, host, path and query.
- `GetBaseURL`: it prints the URL with `url.URL.String`, which depends on Go's URL serialisation. Only the single-slash trim it relies on is stated.
- `ResolveReference`: dot-segment removal and user information are not modelled. The request URL is the base scheme and host with the composed path and a fresh query, which is what resolving an absolute path gives.
- `url.Values.Encode`: percent-encoding and key sorting are not modelled. The query is a map from key to its list of values, and escaping of ids in paths is not modelled either. So an id such as "?" reaches the path unchanged in the model.
- `url.ParseQuery` of the resolved URL's raw query: resolving drops the base URL's query, so `Client.Send` starts `AddParams` from the empty query. `AddParams` itself is proved for any starting query whose keys are among the services' parameter names. `Values` is keyed by `Key`, so a query holding any other name is not modelled.
- `http.NewRequest`'s error path: the model's request cannot be malformed.
- Request bodies: every modelled request passes a nil body.
- `post` and `analytics/reports.go` (`Reports.Run`): they only marshal a struct to JSON, ignoring the marshal error, and POST it. With JSON abstracted nothing is left to state. So `Client` has no `Reports` field.
- `httpClient.Do`, reading the body and `json.Unmarshal`: these are foreign calls. They are the `send` parameter (a `Transport`), the optional body of a `Reply` and the `decode` parameter (a `Decoded` value).
- The JSON types of the `*-types.go` files: the decoded value is the type parameter `T`.
- The error values: each error is a datatype case carrying the message the source builds. Go's `error` interface and `fmt.Errorf` wrapping are not modelled.
- The retry loop and backoff of `newHTTPClient`: they live in the go-retryablehttp library. Only `rateLimitPolicy` is modelled.
- The regular-expression engine: the redirect pattern is a matcher proved equal to the pattern's meaning.
- The x509 type assertion: the cause of a `url.Error` is a `Cause` value.
- The full text of `url.Error.Error()`: the message is a parameter.
- `getAuthToken` (the JWT exchange), `NewAnalyticsClient`, `PrintJSON`, examples/config/config.go and the example `main` programs: these are I/O and process exit.
- Concurrency: the client has none. After construction it holds only configuration.
- Analytics.Client.Get: it closes the body of every response received, error responses included. The source's `get` leaves the body of a non-2xx response open (analytics/client.go:158-162). The results are the same; see "## Findings".
- Http.CanonicalHeaderKey: the contract states only that the length is kept. Its meaning is given by the lemmas `CanonicalHeaderKeyIdempotent` and `CanonicalHeaderKeyIgnoresCase` and by `ApiKeyHeaderSpelling`, not by an ensures of its own.
- Text.FormatInt: its contract states that the text reads back as n and where the minus sign is. That the digits have no leading zero is stated on `NatToDecimal`, which it calls.

## Findings

| source | as written | input that shows it | evidently intended | confidence | as-written member | corrected member |
|---|---|---|---|---|---|---|
| analytics/client.go:158-162 | `request` returns the response together with the status error for a status outside 2xx (analytics/client.go:210-214). `apiRequest` then returns at the error check, before `defer resp.Body.Close()`. So the body of every error response is never closed. | a response with status 404 | close the body of every response received, error responses included, without changing any result | not executed | Requests.ApiRequestAsWritten, Requests.ErrorResponseBodyLeftOpen | Requests.ApiRequest, Requests.ApiRequestKeepsResults |
