# HttpService of the Cadence web client, in Dafny

This project models `HttpService`, the client HTTP layer of the Cadence web UI
(`client/services/http-service.js`), and proves what it promises its callers:

- how a response is classified: 2xx resolves, anything else rejects;
- how the regional origin of a cross-region request is found: domain
  configuration, cluster selection, then the
  `crossRegion.clusterToRegionalDomainUrl` feature flag;
- how the URL and the fetch options of a request are assembled from
  `DEFAULT_FETCH_OPTIONS`, the cross-region layer and the caller's options;
- what the verb helpers `get`, `post`, `put` and `delete` hand to the transport;
- which transport carries each call, the one installed by `setFetch` or the
  page's own `fetch`.

Files:

- `js.dfy` (module `Js`) holds the part of JavaScript the service relies on:
  - values, truthiness and property reads, where reading from `undefined` or
    `null` is a TypeError;
  - object spread, as right-biased map union;
  - the text a template literal produces.
- `http.dfy` (module `Http`) holds the service itself:
  - each method is a function of the transport it runs on;
  - the class `HttpService` holds the mutable `fetchOverride` field that
    `setFetch` sets;
  - its methods select the transport from that field and delegate to those
    functions.
- `properties.dfy` (module `HttpProperties`) holds lemmas that relate several
  calls, and a worked example of the regional-origin lookup.

Every call is modelled as a sequential computation. Its result is a `Traced`
value, which holds two things:

- the outcome the returned promise settles to (`Fulfilled` or `Rejected` with
  a `Reason`);
- every transport call made along the way, in order, each labelled with the
  transport that carried it (`Overridden` or `Ambient`).

This log is what lets the model state claims such as "no configuration or
flag lookup happens" and "feature flags always go to the page's own `fetch`".

The service calls collaborators whose code is not part of this model. They are
fields of the `Env` datatype and are left uninterpreted:

- `window.fetch` (also reached as the bare global `fetch`);
- `response.json()`, modelled as the response's optional parsed body;
- `JSON.stringify`;
- `getQueryStringFromObject`;
- `getClustersFromDomainConfig`;
- the cache manager's answer for a domain.

Where a caller's options and the cross-region layer both set `credentials` or
`mode`, the caller wins, because line 102 spreads the caller's options last.
The model follows the code. It does not force `include`/`cors` on
cross-region requests.

## Model

| member | source | states |
|---|---|---|
| Js.Property | client/services/http-service.js:88-90 | reading a property throws exactly on `undefined`/`null`; an object yields its own property or `undefined` |
| Js.Spread | client/services/http-service.js:96-102 | `{...v}` copies exactly an object's own properties and nothing for `undefined`, `null`, booleans and numbers |
| Js.Truthy | client/services/http-service.js:90-98 | JavaScript's ToBoolean, as `options.activeStatus ?` and `options.activeStatus &&` apply it: `undefined`, `null`, `false`, `0` and `''` are falsy, every object and array truthy |
| Js.DecimalText | client/services/http-service.js:54 | the text of a non-negative number: digits only, no leading zero, and it denotes the number |
| Js.ToText | client/services/http-service.js:94 | what `${v}` produces: `undefined`, `null`, `true`/`false`, the decimal numeral, the string itself, the comma-joined elements, `[object Object]` |
| Js.JoinText | client/services/http-service.js:94 | the text of an array in a template: elements joined by commas, `undefined` and `null` as empty |
| Http.HandleResponse | client/services/http-service.js:42-49 | resolves iff the status is in [200,300); resolves to the parsed body, or `undefined` when the body is not JSON; otherwise rejects with the response, with the parsed body attached when there is one |
| Http.FetchJson | client/services/http-service.js:54-56 | makes exactly one transport call with the given URL and options; a transport rejection passes through; a response settles as `handleResponse` classifies it |
| Http.DomainConfigUrl | client/services/http-service.js:54 | `/api/domains/` followed by the domain's template text |
| Http.FeatureFlagUrl | client/services/http-service.js:60-61 | every feature-flag URL starts with `/api/feature-flags/` |
| Http.GetDomainConfigOn | client/services/http-service.js:51-57 | nullish arguments reject with a TypeError and make no call; otherwise one call to `/api/domains/${domain}` with the default options on the selected transport |
| Http.GetFeatureFlag | client/services/http-service.js:59-65 | nullish arguments reject with a TypeError and make no call; otherwise exactly one call, on the page's own `fetch`, to `/api/feature-flags/${name}${queryString}` with the default options; a failed call or a non-2xx reply rejects as classified; a 2xx reply that is not JSON, or whose body is nullish, rejects with a TypeError; otherwise it resolves to the body's `value` |
| Http.SelectCluster | client/services/http-service.js:76 | the active cluster for `'active'`, the passive one for any other status (proved as ClusterSelection) |
| Http.CachedDomainConfig | client/services/http-service.js:68-70 | a live cache entry answers without any call; otherwise the outcome and calls are those of `getDomainConfig({ domain })` |
| Http.GetRegionalOriginOn | client/services/http-service.js:67-84 | a fulfilled origin is truthy or `''`; every call is on the selected transport except feature-flag calls on the page's `fetch`; nullish options reject with no call |
| Http.Pathname | client/services/http-service.js:88-89 | the path is the base URL followed by the query string (nothing is appended when it is empty) |
| Http.FetchInit | client/services/http-service.js:96-102 | the keys are the defaults', the cross-region keys when `activeStatus` is truthy, and the caller's; every caller key wins; `credentials` defaults to `include` when cross-region, else `same-origin`; `mode` is present iff cross-region and then `cors`; headers default to `Accepts: application/json` |
| Http.RequestOrigin | client/services/http-service.js:90-92 | a falsy `activeStatus` gives `''` with no call; a truthy one gives the regional-origin lookup |
| Http.RequestOn | client/services/http-service.js:86-104 | `null` options reject with a TypeError; every call is on the selected transport except feature-flag calls; its calls and outcome for all other options, omitted ones included, are proved as RequestSends, with RequestWithoutOptions, SameOriginRequest, CrossRegionRequest and RegionalFailureStopsRequest for the particular cases |
| Http.BodyOptions | client/services/http-service.js:106-115 | the caller's keys plus `body` and `headers`; `body` is the serialised body; every other caller option is unchanged; headers are the caller's headers plus `Content-Type: application/json`, which overrides any caller value |
| Http.RequestWithBodyOn | client/services/http-service.js:106-115 | `null` options reject with a TypeError; every call is on the selected transport except feature-flag calls; what it sends otherwise is proved as RequestWithBodySends |
| Http.WithMethod | client/services/http-service.js:125 | `{ ...options, method }`: the caller's keys plus `method`, set to the verb whatever the caller passed; every other key unchanged |
| Http.GetOn | client/services/http-service.js:124-126 | every call is on the selected transport except feature-flag calls; what it sends and how it settles is proved as GetSends |
| Http.PostOn | client/services/http-service.js:128-133 | every call is on the selected transport except feature-flag calls; what it sends and how it settles is proved as PostSends |
| Http.PutOn | client/services/http-service.js:135-140 | every call is on the selected transport except feature-flag calls; what it sends and how it settles is proved as PutSends |
| Http.DeleteOn | client/services/http-service.js:117-122 | every call is on the selected transport except feature-flag calls; what it sends and how it settles is proved as DeleteSends |
| Http.HttpService.constructor | client/services/http-service.js:37-40 | stores the page origin, a cache lifetime of one hour, and no transport override |
| Http.HttpService.SetFetch | client/services/http-service.js:142-144 | replaces the transport override and nothing else |
| Http.HttpService.Fetcher | client/services/http-service.js:87 | the override when one is set, the page's `fetch` otherwise |
| Http.HttpService.GetDomainConfig | client/services/http-service.js:51-57 | every call is on the transport `Fetcher` selects |
| Http.HttpService.GetRegionalOrigin | client/services/http-service.js:67-84 | every call is on the selected transport except feature-flag calls |
| Http.HttpService.Request | client/services/http-service.js:86-104 | every call is on the selected transport except feature-flag calls |
| Http.HttpService.RequestWithBody | client/services/http-service.js:106-115 | every call is on the selected transport except feature-flag calls |
| Http.HttpService.Get | client/services/http-service.js:124-126 | every call is on the selected transport except feature-flag calls |
| Http.HttpService.Post | client/services/http-service.js:128-133 | every call is on the selected transport except feature-flag calls |
| Http.HttpService.Put | client/services/http-service.js:135-140 | every call is on the selected transport except feature-flag calls |
| Http.HttpService.Delete | client/services/http-service.js:117-122 | every call is on the selected transport except feature-flag calls |
| HttpProperties.ClassificationExamples | client/services/http-service.js:42-49 | 204 without a body resolves to `undefined`; 404 with a JSON body rejects with the body attached; 500 with a non-JSON body rejects with the bare response |
| HttpProperties.ClusterSelection | client/services/http-service.js:76 | `'active'`, and only `'active'`, selects the active cluster; every other status selects the passive one |
| HttpProperties.OriginLookupQueriesFlag | client/services/http-service.js:78-83 | once the configuration is known, the last call is the `crossRegion.clusterToRegionalDomainUrl` flag with `{ cluster }` for the selected cluster, on the page's `fetch` |
| HttpProperties.ConfigLookupCalls | client/services/http-service.js:68-70 | a cache hit makes no call; a miss makes exactly one configuration call on the selected transport |
| HttpProperties.OriginFromFlag | client/services/http-service.js:63-83 | the origin is the flag value when truthy and `''` when falsy; a 2xx flag reply that is not JSON, or is nullish, rejects with a TypeError rather than giving `''`; a non-2xx or failed flag call rejects |
| HttpProperties.ConfigFailureStopsLookup | client/services/http-service.js:68-70 | a failed configuration lookup rejects the origin lookup and no flag is queried |
| HttpProperties.CachedOriginLookup | client/services/http-service.js:67-84 | with the configuration cached, the only calls are the flag's, and the origin is its value when truthy, else `''` |
| HttpProperties.ExampleFlagCall | client/services/http-service.js:59-65 | for a concrete page `fetch`, the flag lookup of a cluster calls that cluster's flag URL and settles to the reply's `value` |
| HttpProperties.ExampleFlagValues | client/services/http-service.js:63-64 | in the example, the flags of `a1` and `p1` hold origins and that of `x1` holds none |
| HttpProperties.ExampleLookup | client/services/http-service.js:67-84 | in the example, a cached domain's lookup makes only the selected cluster's flag call |
| HttpProperties.ActiveOriginExample | client/services/http-service.js:76-83 | in the example, `'active'` resolves to the active cluster's origin |
| HttpProperties.ActiveWithoutFlagExample | client/services/http-service.js:76-83 | in the example, `'active'` resolves to `''` when the active cluster's flag has no value |
| HttpProperties.PassiveOriginExample | client/services/http-service.js:76-83 | in the example, `'passive'` resolves to the passive cluster's origin |
| HttpProperties.UnexpectedStatusExample | client/services/http-service.js:76-83 | in the example, an unexpected status (`'standby'`) also resolves to the passive cluster's origin |
| HttpProperties.SameOriginRequest | client/services/http-service.js:88-104 | for options given as an object with a falsy `activeStatus`, the request makes exactly one call, to `baseUrl + queryString`, with the layered options, on the selected transport, and settles as that response is classified |
| HttpProperties.CrossRegionRequest | client/services/http-service.js:86-104 | with a truthy `activeStatus` and a resolved origin, the request goes to `origin + baseUrl + queryString` after the lookup's calls |
| HttpProperties.DefaultRequestOptions | client/services/http-service.js:29-34 | the layered options of a request without `activeStatus` or options of its own are exactly `DEFAULT_FETCH_OPTIONS`: `credentials: 'same-origin'` and `Accepts: application/json`; `RequestWithoutOptions` shows `request` sending them |
| HttpProperties.RequestSends | client/services/http-service.js:86-104 | `request` with any options but `null` (`undefined` defaulting to `{}`): the origin lookup for the caller's options; a failed lookup rejects and nothing is sent; otherwise one call, on the selected transport, to origin + `baseUrl` + query string with the caller's options over the defaults and cross-region layer its `activeStatus` selects, settled as that response is classified |
| HttpProperties.RequestWithoutOptions | client/services/http-service.js:86-104 | `request(baseUrl)` with options omitted makes exactly one call, to `baseUrl` + the query string of `undefined`, with `DEFAULT_FETCH_OPTIONS` and no lookup, and settles as that response is classified |
| HttpProperties.RegionalFailureStopsRequest | client/services/http-service.js:90-96 | with a truthy `activeStatus`, a failed origin lookup rejects the request with the lookup's reason, and the request itself is never sent |
| HttpProperties.SameLookup | client/services/http-service.js:67 | the origin lookup depends only on the options' `activeStatus` and `domain` |
| HttpProperties.RequestWithCallerFields | client/services/http-service.js:86-104 | options that replace only some keys other than `query`, `activeStatus`, `domain` and `credentials` look the origin up as the caller's own would; after a failed lookup nothing is sent; otherwise one call goes to the origin, the base URL and the caller's query string, with every field over the defaults the caller's `activeStatus` selects |
| HttpProperties.BodyVerbCall | client/services/http-service.js:106-140 | a request with a verb's body options: the caller's lookup, then one call to the caller's path carrying the verb, the serialised body, the JSON headers and every other caller option |
| HttpProperties.BodyVerbFieldsSent | client/services/http-service.js:106-140 | the same, for any options shaped as `post`/`put`/`delete` shape them |
| HttpProperties.VerbsUseBodyVerbOptions | client/services/http-service.js:117-140 | `post`, `put` and `delete` hand `request` the caller's options with their verb as `method`, the serialised body and the JSON content type |
| HttpProperties.PostSends | client/services/http-service.js:128-133 | `post`: after the caller's origin lookup (a failure rejects and nothing is sent), one call to origin + `url` + query string carrying method `'post'` whatever the caller passed, the serialised body, `Content-Type: application/json` over the caller's headers, every other caller option, and the `credentials` default; it settles as that response is classified |
| HttpProperties.PutSends | client/services/http-service.js:135-140 | `put`: as for `post`, with method `'put'` |
| HttpProperties.DeleteSends | client/services/http-service.js:117-122 | `delete`: as for `post`, with method `'delete'` |
| HttpProperties.BodyOptionsFields | client/services/http-service.js:106-115 | for options other than `null` (`undefined` counts as `{}`), `requestWithBody` passes the caller's keys plus `body` and `headers`: the serialised body, the caller's headers with `Content-Type: application/json`, every other key unchanged |
| HttpProperties.RequestWithBodySends | client/services/http-service.js:106-115 | `requestWithBody` with options other than `null`: after the caller's origin lookup, one call to origin + `url` + query string carrying the serialised body, the JSON content type over the caller's headers, every other caller option and the `credentials` default |
| HttpProperties.GetSends | client/services/http-service.js:124-126 | `get`: after the caller's origin lookup, one call to origin + `url` + query string carrying method `'get'` whatever the caller passed, the caller's headers or the default `Accepts` header, every other caller option and the `credentials` default |
| HttpProperties.CrossRegionCredentials | client/services/http-service.js:96-102 | a cross-region request sends `credentials: 'include'` and `mode: 'cors'` unless the caller's options set them |
| HttpProperties.BodyVerbOptionsFields | client/services/http-service.js:106-140 | `post`/`put`/`delete` hand `request` the verb, the serialised body, the caller's headers with `Content-Type: application/json`, and every other caller option unchanged |
| HttpProperties.InitOfFields | client/services/http-service.js:96-102 | for object options, every caller key reaches the transport unchanged (`query`, `activeStatus` and `domain` included) and `credentials` defaults by `activeStatus` |
| HttpProperties.CallerFieldsPassThrough | client/services/http-service.js:106-115 | options that keep the caller's other keys keep its `activeStatus`, and with it the cross-region layer and the `credentials` default |
| HttpProperties.BodyVerbInit | client/services/http-service.js:96-140 | what `post`/`put`/`delete` send: the verb, the serialised body, the JSON headers over the caller's, and a `credentials` default set by the caller's own `activeStatus` |
| HttpProperties.GetInit | client/services/http-service.js:124-126 | what `get` sends: method `'get'` whatever the caller passed; the caller's headers, or the default `Accepts` header when it passes none; every other caller option unchanged |
| HttpProperties.SetFetchThenRequest | client/services/http-service.js:142-144 | after `setFetch(f)`, `request` runs on `f` |
| HttpProperties.SetFetchThenGetDomainConfig | client/services/http-service.js:51-57 | after `setFetch(f)`, `getDomainConfig` makes its one call on `f` |

## Left out

- The cache manager's internals (expiry after the lifetime, deduplication of calls in flight, what is stored and when) are not part of this model. `CacheManager` comes from `~managers`, which is outside this model. The model takes the cache's answer at the time of the call as a parameter: a live entry answers without running the producer, and otherwise the producer's outcome is passed on.
- Promise scheduling and interleaving: every call is a sequential computation. `request` selects its transport before awaiting the origin, so a `setFetch` that lands during that wait is not seen. The model selects the transport once per call, which matches this.
- The collaborators' own behaviour, and any exception they throw, are not modelled. These are `window.fetch`, `response.json()` and `JSON.stringify`, which the browser provides, and `getQueryStringFromObject` and `getClustersFromDomainConfig`, from `~helpers`, which is outside this model.
- A `json()` promise that never settles is not modelled: `response.json()` either yields a body or fails.
- Js.Spread: spreading a string or an array copies its index keys in JavaScript, but the model copies nothing. The options the service spreads are objects or absent.
- Prototype properties, getters and property order are not modelled. Objects are finite maps of own properties.
- Numbers are integers: there is no NaN, fraction or `-0`.
- Js.ToText: numbers are unbounded integers printed with all their digits. JavaScript prints a number from 10^21 up in exponent form (`1e+21`), and beyond 2^53 only the shortest digits that round-trip to the same double.
- The template text of an object ignores any own `toString`.
- Http.RequestWithBodyOn: with `null` options, JavaScript throws synchronously at `options.headers`, because `requestWithBody` is not `async`. The model gives a rejected TypeError instead.
- A truthy override that is not a function is not modelled: the model's override is a transport or absent.
- The module-level singleton (`client/services/http-service.js:147`) is not modelled. It is construction plumbing.
- `ONE_HOUR_IN_MILLISECONDS` is taken to be 3600000. The constants module that defines it is not part of this model.
- The stored `origin` (`window.location.origin`) is kept but never read, as in the source. Requests use the regional origin or `''`.
- `client/containers/domain/getters.js` is not part of this model: it composes helpers from modules outside this model.
