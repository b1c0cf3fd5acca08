/**
  The client HTTP layer of the Cadence web UI (client/services/http-service.js):
  how a request is assembled (URL, fetch options, cross-region origin), how the
  transport is chosen, and how a response is classified.

  Every call is a sequential computation. Its result is a `Traced`: the
  outcome the returned promise settles to, and the transport calls
  (`Exchange`s) made along the way, in order, each labelled with the
  transport that carried it.
 */
module Http {
  import opened Js

  /** A fetch Response: its status, and what `response.json()` yields (None: the body is not JSON). */
  datatype Response = Response(status: int, json: Option<JsValue>)

  /** Why a promise of this layer rejects. */
  datatype Reason =
    /** A non-2xx response, with the parsed body attached when there is one. */
    | HttpError(response: Response, json: Option<JsValue>)
    /** The transport itself rejected (network failure). */
    | TransportError(message: string)
    /** A property was read from `undefined` or `null`. */
    | TypeError

  /** What a promise settles to. */
  datatype Settled<+T> = Fulfilled(value: T) | Rejected(reason: Reason)

  /** The options object handed to the transport: the second argument of `fetch`. */
  type Init = map<string, JsValue>

  /** A `fetch`-like function: `(url, options) -> Promise<Response>`. */
  type Transport = (string, Init) -> Settled<Response>

  /** Which transport carried a call: the one installed by `setFetch`, or the page's own `fetch`. */
  datatype Via = Overridden | Ambient

  /** One transport call. */
  datatype Exchange = Exchange(via: Via, url: string, init: Init)

  datatype Traced = Traced(outcome: Settled<JsValue>, exchanges: seq<Exchange>)

  /** What `getClustersFromDomainConfig` extracts from a domain configuration. */
  datatype Clusters = Clusters(activeCluster: JsValue, passiveCluster: JsValue)

  /**
    The collaborators this layer calls but does not define:
    `window.fetch` (also the bare global `fetch`), `getQueryStringFromObject`,
    `JSON.stringify`, `getClustersFromDomainConfig`, and the cache manager's
    answer for a domain at the time of the call (`Some(config)` when it holds
    a live entry and the producer is not run).
   */
  datatype Env = Env(
    windowFetch: Transport,
    queryStringOf: JsValue -> string,
    stringify: JsValue -> JsValue,
    clustersOf: JsValue -> Clusters,
    cached: JsValue -> Option<JsValue>)

  /** The lifetime of a cached domain configuration, one hour in milliseconds. */
  const OneHourInMilliseconds: int := 60 * 60 * 1000

  /** The feature flag that maps a cluster to its regional origin. */
  const RegionalDomainFlag: string := "crossRegion.clusterToRegionalDomainUrl"

  const SameOrigin: JsValue := Str("same-origin")
  const Include: JsValue := Str("include")
  const Cors: JsValue := Str("cors")
  const ApplicationJson: JsValue := Str("application/json")

  /** `DEFAULT_FETCH_OPTIONS`. */
  const DefaultFetchOptions: Init :=
    map["credentials" := SameOrigin, "headers" := Obj(map["Accepts" := ApplicationJson])]

  /** The options a cross-region request adds. */
  const CrossRegionOptions: Init := map["credentials" := Include, "mode" := Cors]

  /** `handleResponse`: 2xx resolves to the parsed body (`undefined` when there is none); anything else rejects. */
  function HandleResponse(response: Response): (r: Settled<JsValue>)
    ensures r.Fulfilled? <==> 200 <= response.status < 300
    ensures r.Fulfilled? && response.json.Some? ==> r.value == response.json.value
    ensures r.Fulfilled? && response.json.None? ==> r.value == Undefined
    ensures r.Rejected? ==> r.reason == HttpError(response, response.json)
  {
    if 200 <= response.status < 300 then
      Fulfilled(if response.json.Some? then response.json.value else Undefined)
    else
      Rejected(HttpError(response, response.json))
  }

  /** `fetch(url, init).then(handleResponse)` on the transport `t`, labelled `via`. */
  function FetchJson(via: Via, t: Transport, url: string, init: Init): (r: Traced)
    ensures r.exchanges == [Exchange(via, url, init)]
    ensures t(url, init).Rejected? ==> r.outcome == Rejected(t(url, init).reason)
    ensures t(url, init).Fulfilled? ==> r.outcome == HandleResponse(t(url, init).value)
  {
    var outcome :=
      match t(url, init)
      case Fulfilled(response) => HandleResponse(response)
      case Rejected(e) => Rejected(e);
    Traced(outcome, [Exchange(via, url, init)])
  }

  /** The URL of a domain's configuration. */
  function DomainConfigUrl(domain: JsValue): string {
    "/api/domains/" + ToText(domain)
  }

  const FeatureFlagPath: string := "/api/feature-flags/"

  /** The URL of a feature flag with its query string. */
  function FeatureFlagUrl(env: Env, name: JsValue, params: JsValue): (url: string)
    ensures FeatureFlagPath <= url
  {
    var tail := ToText(name) + env.queryStringOf(params);
    assert FeatureFlagPath + ToText(name) + env.queryStringOf(params) == FeatureFlagPath + tail;
    FeatureFlagPath + tail
  }

  /**
    Every call in `exchanges` is on the transport `via`, except feature-flag
    lookups, which may be on the page's own `fetch`. A call is taken to be a
    feature-flag lookup by its URL alone, so a call on the page's `fetch` to
    any URL under `/api/feature-flags/` passes too; the transport of the
    request's own call is pinned by the lemmas about each call.
   */
  predicate Routed(exchanges: seq<Exchange>, via: Via) {
    forall e :: e in exchanges ==> e.via == via || (e.via == Ambient && FeatureFlagPath <= e.url)
  }

  /** `getDomainConfig({ domain })` on the selected transport. */
  function GetDomainConfigOn(fetcher: (Via, Transport), args: JsValue): (r: Traced)
    ensures IsNullish(args) ==> r == Traced(Rejected(TypeError), [])
    ensures !IsNullish(args) ==> r == FetchJson(fetcher.0, fetcher.1, DomainConfigUrl(Property(args, "domain").value), DefaultFetchOptions)
  {
    match Property(args, "domain")
    case None => Traced(Rejected(TypeError), [])
    case Some(domain) => FetchJson(fetcher.0, fetcher.1, DomainConfigUrl(domain), DefaultFetchOptions)
  }

  /**
    `getFeatureFlag({ name, params })`: one call, always on the page's own
    `fetch`; resolves to the `value` property of the parsed body, and rejects
    with a TypeError when a 2xx body is not JSON or is `null`.
   */
  function GetFeatureFlag(env: Env, args: JsValue): (r: Traced)
    ensures IsNullish(args) ==> r == Traced(Rejected(TypeError), [])
    ensures !IsNullish(args) ==>
      r.exchanges == [Exchange(Ambient, FeatureFlagUrl(env, Property(args, "name").value, Property(args, "params").value), DefaultFetchOptions)]
    ensures forall e :: e in r.exchanges ==> e.via == Ambient && FeatureFlagPath <= e.url && e.init == DefaultFetchOptions
    ensures !IsNullish(args) ==>
      var reply := env.windowFetch(r.exchanges[0].url, DefaultFetchOptions);
      && (reply.Rejected? ==> r.outcome == Rejected(reply.reason))
      && (reply.Fulfilled? && !(200 <= reply.value.status < 300) ==> r.outcome == Rejected(HttpError(reply.value, reply.value.json)))
      && (reply.Fulfilled? && 200 <= reply.value.status < 300 && reply.value.json.None? ==> r.outcome == Rejected(TypeError))
      && (reply.Fulfilled? && 200 <= reply.value.status < 300 && reply.value.json.Some? ==>
            var body := reply.value.json.value;
            && (IsNullish(body) ==> r.outcome == Rejected(TypeError))
            && (!IsNullish(body) ==> r.outcome == Fulfilled(Property(body, "value").value)))
  {
    if IsNullish(args) then Traced(Rejected(TypeError), [])
    else
      var url := FeatureFlagUrl(env, Property(args, "name").value, Property(args, "params").value);
      var response := FetchJson(Ambient, env.windowFetch, url, DefaultFetchOptions);
      var outcome :=
        match response.outcome
        case Rejected(e) => Rejected(e)
        case Fulfilled(body) =>
          match Property(body, "value")
          case None => Rejected(TypeError)
          case Some(value) => Fulfilled(value);
      Traced(outcome, response.exchanges)
  }

  /** The cluster whose regional origin is wanted: the active one exactly for `'active'`. */
  function SelectCluster(clusters: Clusters, activeStatus: JsValue): JsValue {
    if activeStatus == Str("active") then clusters.activeCluster else clusters.passiveCluster
  }

  /** `cacheManager.get(domain, () => getDomainConfig({ domain }))`. */
  function CachedDomainConfig(fetcher: (Via, Transport), env: Env, domain: JsValue): (r: Traced)
    ensures env.cached(domain).Some? ==> r == Traced(Fulfilled(env.cached(domain).value), [])
    ensures env.cached(domain).None? ==> r == GetDomainConfigOn(fetcher, Obj(map["domain" := domain]))
  {
    match env.cached(domain)
    case Some(config) => Traced(Fulfilled(config), [])
    case None => GetDomainConfigOn(fetcher, Obj(map["domain" := domain]))
  }

  /**
    `getRegionalOrigin({ activeStatus, domain })`: the regional origin flag of
    the selected cluster, or `''` when the flag is falsy.
   */
  function GetRegionalOriginOn(fetcher: (Via, Transport), env: Env, options: JsValue): (r: Traced)
    ensures IsNullish(options) ==> r == Traced(Rejected(TypeError), [])
    ensures r.outcome.Fulfilled? ==> Truthy(r.outcome.value) || r.outcome.value == Str("")
    ensures Routed(r.exchanges, fetcher.0)
  {
    if IsNullish(options) then Traced(Rejected(TypeError), [])
    else
      var activeStatus := Property(options, "activeStatus").value;
      var domain := Property(options, "domain").value;
      var config := CachedDomainConfig(fetcher, env, domain);
      match config.outcome
      case Rejected(e) => Traced(Rejected(e), config.exchanges)
      case Fulfilled(c) =>
        var cluster := SelectCluster(env.clustersOf(c), activeStatus);
        var flag := GetFeatureFlag(env, Obj(map["name" := Str(RegionalDomainFlag), "params" := Obj(map["cluster" := cluster])]));
        var outcome :=
          match flag.outcome
          case Rejected(e) => Rejected(e)
          case Fulfilled(v) => Fulfilled(if Truthy(v) then v else Str(""));
        Traced(outcome, config.exchanges + flag.exchanges)
  }

  /** The path with its query string, which is appended only when it is not empty. */
  function Pathname(baseUrl: string, queryString: string): (r: string)
    ensures r == baseUrl + queryString
  {
    if queryString != "" then baseUrl + queryString else baseUrl
  }

  /**
    `{ ...DEFAULT_FETCH_OPTIONS, ...(activeStatus && { credentials: 'include', mode: 'cors' }), ...options }`:
    a later layer wins on every key it has.
   */
  function FetchInit(activeStatus: JsValue, options: JsValue): (init: Init)
    ensures init.Keys == DefaultFetchOptions.Keys + (if Truthy(activeStatus) then CrossRegionOptions.Keys else {}) + Spread(options).Keys
    ensures forall k :: k in Spread(options) ==> init[k] == Spread(options)[k]
    ensures "credentials" !in Spread(options) ==> init["credentials"] == if Truthy(activeStatus) then Include else SameOrigin
    ensures "mode" !in Spread(options) ==> ("mode" in init <==> Truthy(activeStatus))
    ensures "mode" !in Spread(options) && Truthy(activeStatus) ==> init["mode"] == Cors
    ensures "headers" !in Spread(options) ==> init["headers"] == DefaultFetchOptions["headers"]
  {
    DefaultFetchOptions + (if Truthy(activeStatus) then CrossRegionOptions else map[]) + Spread(options)
  }

  /** The origin a request targets: the regional one when `options.activeStatus` is truthy, else `''`. */
  function RequestOrigin(fetcher: (Via, Transport), env: Env, options: JsValue): (r: Traced)
    requires !IsNullish(options)
    ensures !Truthy(Property(options, "activeStatus").value) ==> r == Traced(Fulfilled(Str("")), [])
    ensures Truthy(Property(options, "activeStatus").value) ==> r == GetRegionalOriginOn(fetcher, env, options)
    ensures Routed(r.exchanges, fetcher.0)
  {
    if Truthy(Property(options, "activeStatus").value) then GetRegionalOriginOn(fetcher, env, options)
    else Traced(Fulfilled(Str("")), [])
  }

  /** `request(baseUrl, options = {})` on the selected transport. */
  function RequestOn(fetcher: (Via, Transport), env: Env, baseUrl: string, options: JsValue): (r: Traced)
    ensures options.Null? ==> r == Traced(Rejected(TypeError), [])
    ensures Routed(r.exchanges, fetcher.0)
  {
    var opts := if options.Undefined? then Obj(map[]) else options;
    if opts.Null? then Traced(Rejected(TypeError), [])
    else
      var pathname := Pathname(baseUrl, env.queryStringOf(Property(opts, "query").value));
      var origin := RequestOrigin(fetcher, env, opts);
      match origin.outcome
      case Rejected(e) => Traced(Rejected(e), origin.exchanges)
      case Fulfilled(o) =>
        var init := FetchInit(Property(opts, "activeStatus").value, opts);
        var sent := FetchJson(fetcher.0, fetcher.1, ToText(o) + pathname, init);
        Traced(sent.outcome, origin.exchanges + sent.exchanges)
  }

  /** `{ ...options, body, headers: { ...options.headers, 'Content-Type': 'application/json' } }`. */
  function BodyOptions(body: JsValue, options: JsValue): (r: Init)
    requires !IsNullish(options)
    ensures r.Keys == Spread(options).Keys + {"body", "headers"}
    ensures r["body"] == body
    ensures forall k :: k in Spread(options) && k != "body" && k != "headers" ==> r[k] == Spread(options)[k]
    ensures r["headers"].Obj?
    ensures r["headers"].props.Keys == Spread(Property(options, "headers").value).Keys + {"Content-Type"}
    ensures r["headers"].props["Content-Type"] == ApplicationJson
    ensures forall h :: h in Spread(Property(options, "headers").value) && h != "Content-Type" ==>
      r["headers"].props[h] == Spread(Property(options, "headers").value)[h]
  {
    var headers := Spread(Property(options, "headers").value) + map["Content-Type" := ApplicationJson];
    Spread(options) + map["body" := body, "headers" := Obj(headers)]
  }

  /** `requestWithBody(url, body, options = {})` on the selected transport. */
  function RequestWithBodyOn(fetcher: (Via, Transport), env: Env, url: string, body: JsValue, options: JsValue): (r: Traced)
    ensures options.Null? ==> r == Traced(Rejected(TypeError), [])
    ensures Routed(r.exchanges, fetcher.0)
  {
    var opts := if options.Undefined? then Obj(map[]) else options;
    if opts.Null? then Traced(Rejected(TypeError), [])
    else RequestOn(fetcher, env, url, Obj(BodyOptions(env.stringify(body), opts)))
  }

  /** `{ ...options, method }`. */
  function WithMethod(options: JsValue, verb: string): (r: JsValue)
    ensures r.Obj? && r.props.Keys == Spread(options).Keys + {"method"}
    ensures r.props["method"] == Str(verb)
    ensures forall k :: k in Spread(options) && k != "method" ==> r.props[k] == Spread(options)[k]
  {
    Obj(Spread(options) + map["method" := Str(verb)])
  }

  /** `get(url, options = {})`. */
  function GetOn(fetcher: (Via, Transport), env: Env, url: string, options: JsValue): (r: Traced)
    ensures Routed(r.exchanges, fetcher.0)
  {
    RequestOn(fetcher, env, url, WithMethod(options, "get"))
  }

  /** `post(url, body, options = {})`. */
  function PostOn(fetcher: (Via, Transport), env: Env, url: string, body: JsValue, options: JsValue): (r: Traced)
    ensures Routed(r.exchanges, fetcher.0)
  {
    RequestWithBodyOn(fetcher, env, url, body, WithMethod(options, "post"))
  }

  /** `put(url, body, options = {})`. */
  function PutOn(fetcher: (Via, Transport), env: Env, url: string, body: JsValue, options: JsValue): (r: Traced)
    ensures Routed(r.exchanges, fetcher.0)
  {
    RequestWithBodyOn(fetcher, env, url, body, WithMethod(options, "put"))
  }

  /** `delete(url, body, options = {})`. */
  function DeleteOn(fetcher: (Via, Transport), env: Env, url: string, body: JsValue, options: JsValue): (r: Traced)
    ensures Routed(r.exchanges, fetcher.0)
  {
    RequestWithBodyOn(fetcher, env, url, body, WithMethod(options, "delete"))
  }

  /**
    The service object. `origin` and the cache lifetime are fixed at
    construction; `setFetch` replaces the transport used by `request` and
    `getDomainConfig`.
   */
  class HttpService {
    const origin: string
    const cacheTtl: int
    var fetchOverride: Option<Transport>

    constructor (windowOrigin: string)
      ensures origin == windowOrigin && cacheTtl == OneHourInMilliseconds
      ensures fetchOverride == None
    {
      origin := windowOrigin;
      cacheTtl := OneHourInMilliseconds;
      fetchOverride := None;
    }

    method SetFetch(fetch: Option<Transport>)
      modifies this
      ensures fetchOverride == fetch
    {
      fetchOverride := fetch;
    }

    /** `this.fetchOverride ? this.fetchOverride : window.fetch`: the transport `request` and `getDomainConfig` use now. */
    function Fetcher(env: Env): (r: (Via, Transport))
      reads this
      ensures fetchOverride.Some? ==> r == (Overridden, fetchOverride.value)
      ensures fetchOverride.None? ==> r == (Ambient, env.windowFetch)
    {
      match fetchOverride
      case Some(f) => (Overridden, f)
      case None => (Ambient, env.windowFetch)
    }

    function GetDomainConfig(env: Env, args: JsValue): (r: Traced)
      reads this
      ensures forall e :: e in r.exchanges ==> e.via == Fetcher(env).0
    {
      GetDomainConfigOn(Fetcher(env), args)
    }

    function GetRegionalOrigin(env: Env, options: JsValue): (r: Traced)
      reads this
      ensures Routed(r.exchanges, Fetcher(env).0)
    {
      GetRegionalOriginOn(Fetcher(env), env, options)
    }

    function Request(env: Env, baseUrl: string, options: JsValue): (r: Traced)
      reads this
      ensures Routed(r.exchanges, Fetcher(env).0)
    {
      RequestOn(Fetcher(env), env, baseUrl, options)
    }

    function RequestWithBody(env: Env, url: string, body: JsValue, options: JsValue): (r: Traced)
      reads this
      ensures Routed(r.exchanges, Fetcher(env).0)
    {
      RequestWithBodyOn(Fetcher(env), env, url, body, options)
    }

    function Get(env: Env, url: string, options: JsValue): (r: Traced)
      reads this
      ensures Routed(r.exchanges, Fetcher(env).0)
    {
      GetOn(Fetcher(env), env, url, options)
    }

    function Post(env: Env, url: string, body: JsValue, options: JsValue): (r: Traced)
      reads this
      ensures Routed(r.exchanges, Fetcher(env).0)
    {
      PostOn(Fetcher(env), env, url, body, options)
    }

    function Put(env: Env, url: string, body: JsValue, options: JsValue): (r: Traced)
      reads this
      ensures Routed(r.exchanges, Fetcher(env).0)
    {
      PutOn(Fetcher(env), env, url, body, options)
    }

    function Delete(env: Env, url: string, body: JsValue, options: JsValue): (r: Traced)
      reads this
      ensures Routed(r.exchanges, Fetcher(env).0)
    {
      DeleteOn(Fetcher(env), env, url, body, options)
    }
  }
}
