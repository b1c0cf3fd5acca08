/**
  What the HTTP service promises its callers, stated over the model in
  module Http: how each call settles, which transport calls it makes, and
  with which URL and options.
 */
module HttpProperties {
  import opened Js
  import opened Http

  /** The status classification `handleResponse` applies. */
  predicate IsSuccessStatus(status: int) {
    200 <= status < 300
  }

  /** A transport call to a feature flag, on the page's own `fetch`. */
  function FlagExchange(env: Env, cluster: JsValue): Exchange {
    Exchange(Ambient, FeatureFlagUrl(env, Str(RegionalDomainFlag), Obj(map["cluster" := cluster])), DefaultFetchOptions)
  }

  // ---------------------------------------------------------------- handleResponse

  /**
    The three classifications: 204 without a body resolves to `undefined`;
    404 with a JSON body rejects with the body attached; 500 with a body
    that is not JSON rejects with the bare response.
   */
  lemma ClassificationExamples(error: JsValue)
    ensures HandleResponse(Response(204, None)) == Fulfilled(Undefined)
    ensures HandleResponse(Response(404, Some(error))) == Rejected(HttpError(Response(404, Some(error)), Some(error)))
    ensures HandleResponse(Response(500, None)) == Rejected(HttpError(Response(500, None), None))
  {
  }

  // ---------------------------------------------------------------- getRegionalOrigin

  /** `'active'`, and only `'active'`, selects the active cluster. */
  lemma ClusterSelection(clusters: Clusters, activeStatus: JsValue)
    ensures activeStatus == Str("active") ==> SelectCluster(clusters, activeStatus) == clusters.activeCluster
    ensures activeStatus != Str("active") ==> SelectCluster(clusters, activeStatus) == clusters.passiveCluster
  {
  }

  /**
    Once the domain configuration is known, the regional origin is looked up
    as the flag `crossRegion.clusterToRegionalDomainUrl` with `{ cluster }`
    for the selected cluster, on the page's own `fetch`, and it is the last
    call the lookup makes.
   */
  lemma OriginLookupQueriesFlag(fetcher: (Via, Transport), env: Env, options: JsValue, config: JsValue)
    requires !IsNullish(options)
    requires CachedDomainConfig(fetcher, env, Property(options, "domain").value).outcome == Fulfilled(config)
    ensures var r := GetRegionalOriginOn(fetcher, env, options);
      var cluster := SelectCluster(env.clustersOf(config), Property(options, "activeStatus").value);
      r.exchanges == CachedDomainConfig(fetcher, env, Property(options, "domain").value).exchanges + [FlagExchange(env, cluster)]
  {
  }

  /** The flag request `getRegionalOrigin` makes for `cluster`: `{ name: 'crossRegion.clusterToRegionalDomainUrl', params: { cluster } }`. */
  function RegionalFlagArgs(cluster: JsValue): JsValue {
    Obj(map["name" := Str(RegionalDomainFlag), "params" := Obj(map["cluster" := cluster])])
  }

  /**
    With the domain configuration cached, the origin lookup makes only the
    flag call for the selected cluster, and settles to the flag's value when
    it is truthy and to `''` when it is falsy.
   */
  lemma CachedOriginLookup(fetcher: (Via, Transport), env: Env, options: JsValue, config: JsValue, value: JsValue)
    requires !IsNullish(options)
    requires env.cached(Property(options, "domain").value) == Some(config)
    requires var cluster := SelectCluster(env.clustersOf(config), Property(options, "activeStatus").value);
      GetFeatureFlag(env, RegionalFlagArgs(cluster)).outcome == Fulfilled(value)
    ensures var cluster := SelectCluster(env.clustersOf(config), Property(options, "activeStatus").value);
      var r := GetRegionalOriginOn(fetcher, env, options);
      && r.exchanges == GetFeatureFlag(env, RegionalFlagArgs(cluster)).exchanges
      && r.outcome == Fulfilled(if Truthy(value) then value else Str(""))
  {
  }

  /** A live cache entry answers without a domain-configuration call; otherwise one call is made on the selected transport. */
  lemma ConfigLookupCalls(fetcher: (Via, Transport), env: Env, domain: JsValue)
    ensures env.cached(domain).Some? ==> CachedDomainConfig(fetcher, env, domain).exchanges == []
    ensures env.cached(domain).None? ==>
      CachedDomainConfig(fetcher, env, domain).exchanges == [Exchange(fetcher.0, DomainConfigUrl(domain), DefaultFetchOptions)]
  {
  }

  /**
    The resolved origin is the flag value when it is truthy and `''` otherwise;
    a 2xx flag response whose body is not JSON rejects (reading `.value` of
    `undefined`) instead of giving `''`; a flag request that fails rejects.
   */
  lemma OriginFromFlag(fetcher: (Via, Transport), env: Env, options: JsValue, config: JsValue)
    requires !IsNullish(options)
    requires CachedDomainConfig(fetcher, env, Property(options, "domain").value).outcome == Fulfilled(config)
    ensures var cluster := SelectCluster(env.clustersOf(config), Property(options, "activeStatus").value);
      var flag := FlagExchange(env, cluster);
      var reply := env.windowFetch(flag.url, flag.init);
      var r := GetRegionalOriginOn(fetcher, env, options).outcome;
      && (reply.Rejected? ==> r == Rejected(reply.reason))
      && (reply.Fulfilled? && !IsSuccessStatus(reply.value.status) ==> r == Rejected(HttpError(reply.value, reply.value.json)))
      && (reply.Fulfilled? && IsSuccessStatus(reply.value.status) && reply.value.json.None? ==> r == Rejected(TypeError))
      && (reply.Fulfilled? && IsSuccessStatus(reply.value.status) && reply.value.json.Some? ==>
            var body := reply.value.json.value;
            && (IsNullish(body) ==> r == Rejected(TypeError))
            && (!IsNullish(body) && Truthy(Property(body, "value").value) ==> r == Fulfilled(Property(body, "value").value))
            && (!IsNullish(body) && !Truthy(Property(body, "value").value) ==> r == Fulfilled(Str(""))))
  {
  }

  /** A failed configuration lookup rejects the origin lookup and no flag is queried. */
  lemma ConfigFailureStopsLookup(fetcher: (Via, Transport), env: Env, options: JsValue, reason: Reason)
    requires !IsNullish(options)
    requires CachedDomainConfig(fetcher, env, Property(options, "domain").value).outcome == Rejected(reason)
    ensures GetRegionalOriginOn(fetcher, env, options) ==
      Traced(Rejected(reason), CachedDomainConfig(fetcher, env, Property(options, "domain").value).exchanges)
  {
  }

  /** The URL of the regional-origin flag for `cluster` in the example below. */
  function ExampleFlagUrl(cluster: string): string {
    FeatureFlagPath + RegionalDomainFlag + "?cluster=" + cluster
  }

  /** A flag response carrying `value`. */
  function FlagReply(value: JsValue): Settled<Response> {
    Fulfilled(Response(200, Some(Obj(map["value" := value]))))
  }

  /** The page's `fetch` in the example: origins for `a1` and `p1`, no value for `x1`, 404 for anything else. */
  function ExampleFetch(url: string, init: Init): Settled<Response> {
    if url == ExampleFlagUrl("a1") then FlagReply(Str("https://a1.example.com"))
    else if url == ExampleFlagUrl("p1") then FlagReply(Str("https://p1.example.com"))
    else if url == ExampleFlagUrl("x1") then Fulfilled(Response(200, Some(Obj(map[]))))
    else Fulfilled(Response(404, None))
  }

  function ExampleQueryString(params: JsValue): string {
    if params.Obj? && "cluster" in params.props && params.props["cluster"].Str?
    then "?cluster=" + params.props["cluster"].s else ""
  }

  function ExampleClusters(config: JsValue): Clusters {
    if config.Obj? then Clusters(Property(config, "activeCluster").value, Property(config, "passiveCluster").value)
    else Clusters(Undefined, Undefined)
  }

  /** Domain `d1` has clusters `a1`/`p1`, domain `d2` has `x1`/`p1`; both are cached. */
  function ExampleCache(domain: JsValue): Option<JsValue> {
    if domain == Str("d1") then Some(Obj(map["activeCluster" := Str("a1"), "passiveCluster" := Str("p1")]))
    else if domain == Str("d2") then Some(Obj(map["activeCluster" := Str("x1"), "passiveCluster" := Str("p1")]))
    else None
  }

  function ExampleEnv(): Env {
    Env(ExampleFetch, ExampleQueryString, (value: JsValue) => Undefined, ExampleClusters, ExampleCache)
  }

  /** The flag URLs of different clusters differ. */
  lemma ExampleFlagUrlsDiffer(c1: string, c2: string)
    requires c1 != c2
    ensures ExampleFlagUrl(c1) != ExampleFlagUrl(c2)
  {
    var prefix := FeatureFlagPath + RegionalDomainFlag + "?cluster=";
    assert ExampleFlagUrl(c1)[|prefix|..] == c1;
    assert ExampleFlagUrl(c2)[|prefix|..] == c2;
  }

  /** What the example's `fetch` answers for each cluster's flag. */
  lemma ExampleReplies(init: Init)
    ensures ExampleFetch(ExampleFlagUrl("a1"), init) == FlagReply(Str("https://a1.example.com"))
    ensures ExampleFetch(ExampleFlagUrl("p1"), init) == FlagReply(Str("https://p1.example.com"))
    ensures ExampleFetch(ExampleFlagUrl("x1"), init) == Fulfilled(Response(200, Some(Obj(map[]))))
  {
    ExampleFlagUrlsDiffer("p1", "a1");
    ExampleFlagUrlsDiffer("x1", "a1");
    ExampleFlagUrlsDiffer("x1", "p1");
  }

  /** In the example, the flag lookup for `cluster` makes one call to that cluster's flag URL and settles to the `value` of the reply. */
  lemma ExampleFlagCall(cluster: string, body: map<string, JsValue>)
    requires ExampleFetch(ExampleFlagUrl(cluster), DefaultFetchOptions) == Fulfilled(Response(200, Some(Obj(body))))
    ensures var flag := GetFeatureFlag(ExampleEnv(), RegionalFlagArgs(Str(cluster)));
      && flag.exchanges == [Exchange(Ambient, ExampleFlagUrl(cluster), DefaultFetchOptions)]
      && flag.outcome == Fulfilled(if "value" in body then body["value"] else Undefined)
  {
    var env := ExampleEnv();
    var params := Obj(map["cluster" := Str(cluster)]);
    var args := RegionalFlagArgs(Str(cluster));
    assert ExampleQueryString(params) == "?cluster=" + cluster;
    assert FeatureFlagUrl(env, Str(RegionalDomainFlag), params) == ExampleFlagUrl(cluster);
    assert Property(args, "name").value == Str(RegionalDomainFlag);
    assert Property(args, "params").value == params;
  }

  /** The clusters of the example's cached domains. */
  lemma ExampleClusterTable()
    ensures ExampleCache(Str("d1")).Some? && ExampleClusters(ExampleCache(Str("d1")).value) == Clusters(Str("a1"), Str("p1"))
    ensures ExampleCache(Str("d2")).Some? && ExampleClusters(ExampleCache(Str("d2")).value) == Clusters(Str("x1"), Str("p1"))
  {
    var d1 := ExampleCache(Str("d1")).value;
    var d2 := ExampleCache(Str("d2")).value;
    assert Property(d1, "activeCluster").value == Str("a1");
    assert Property(d2, "activeCluster").value == Str("x1");
  }

  /** The flag values the example's clusters resolve to: an origin for `a1` and `p1`, nothing for `x1`. */
  lemma ExampleFlagValues()
    ensures GetFeatureFlag(ExampleEnv(), RegionalFlagArgs(Str("a1"))).outcome == Fulfilled(Str("https://a1.example.com"))
    ensures GetFeatureFlag(ExampleEnv(), RegionalFlagArgs(Str("p1"))).outcome == Fulfilled(Str("https://p1.example.com"))
    ensures GetFeatureFlag(ExampleEnv(), RegionalFlagArgs(Str("x1"))).outcome == Fulfilled(Undefined)
  {
    ExampleReplies(DefaultFetchOptions);
    ExampleFlagCall("a1", map["value" := Str("https://a1.example.com")]);
    ExampleFlagCall("p1", map["value" := Str("https://p1.example.com")]);
    ExampleFlagCall("x1", map[]);
  }

  /**
    In the example, the origin lookup for a cached domain makes only the flag
    call for the selected cluster, and settles to that flag's value when it is
    truthy and to `''` otherwise.
   */
  lemma ExampleLookup(fetcher: (Via, Transport), status: JsValue, domain: JsValue, cluster: string, value: JsValue)
    requires ExampleCache(domain).Some?
    requires SelectCluster(ExampleClusters(ExampleCache(domain).value), status) == Str(cluster)
    requires GetFeatureFlag(ExampleEnv(), RegionalFlagArgs(Str(cluster))).outcome == Fulfilled(value)
    ensures var r := GetRegionalOriginOn(fetcher, ExampleEnv(), Obj(map["activeStatus" := status, "domain" := domain]));
      && r.exchanges == GetFeatureFlag(ExampleEnv(), RegionalFlagArgs(Str(cluster))).exchanges
      && r.outcome == Fulfilled(if Truthy(value) then value else Str(""))
  {
    var options := Obj(map["activeStatus" := status, "domain" := domain]);
    assert Property(options, "activeStatus").value == status;
    assert Property(options, "domain").value == domain;
    CachedOriginLookup(fetcher, ExampleEnv(), options, ExampleCache(domain).value, value);
  }

  /** In that setting `'active'` resolves to the active cluster's origin. */
  lemma ActiveOriginExample(fetcher: (Via, Transport))
    ensures GetRegionalOriginOn(fetcher, ExampleEnv(), Obj(map["activeStatus" := Str("active"), "domain" := Str("d1")])).outcome
      == Fulfilled(Str("https://a1.example.com"))
  {
    ExampleFlagValues();
    ExampleClusterTable();
    ExampleLookup(fetcher, Str("active"), Str("d1"), "a1", Str("https://a1.example.com"));
  }

  /** In that setting `'active'` resolves to `''` when the active cluster's flag has no value. */
  lemma ActiveWithoutFlagExample(fetcher: (Via, Transport))
    ensures GetRegionalOriginOn(fetcher, ExampleEnv(), Obj(map["activeStatus" := Str("active"), "domain" := Str("d2")])).outcome
      == Fulfilled(Str(""))
  {
    ExampleFlagValues();
    ExampleClusterTable();
    ExampleLookup(fetcher, Str("active"), Str("d2"), "x1", Undefined);
  }

  /** In that setting `'passive'` resolves to the passive cluster's origin. */
  lemma PassiveOriginExample(fetcher: (Via, Transport))
    ensures GetRegionalOriginOn(fetcher, ExampleEnv(), Obj(map["activeStatus" := Str("passive"), "domain" := Str("d1")])).outcome
      == Fulfilled(Str("https://p1.example.com"))
  {
    ExampleFlagValues();
    ExampleClusterTable();
    ExampleLookup(fetcher, Str("passive"), Str("d1"), "p1", Str("https://p1.example.com"));
  }

  /** In that setting a status other than `'active'` or `'passive'` also resolves to the passive cluster's origin. */
  lemma UnexpectedStatusExample(fetcher: (Via, Transport))
    ensures GetRegionalOriginOn(fetcher, ExampleEnv(), Obj(map["activeStatus" := Str("standby"), "domain" := Str("d1")])).outcome
      == Fulfilled(Str("https://p1.example.com"))
  {
    ExampleFlagValues();
    ExampleClusterTable();
    ExampleLookup(fetcher, Str("standby"), Str("d1"), "p1", Str("https://p1.example.com"));
  }

  // ---------------------------------------------------------------- request

  /**
    Without a truthy `activeStatus` a request makes exactly one call: no
    configuration or flag lookup, to `baseUrl + queryString`, with the
    layered options, on the selected transport; it settles as that response
    is classified.
   */
  lemma SameOriginRequest(fetcher: (Via, Transport), env: Env, baseUrl: string, options: JsValue)
    requires options.Obj?
    requires !Truthy(Property(options, "activeStatus").value)
    ensures var url := baseUrl + env.queryStringOf(Property(options, "query").value);
      var init := FetchInit(Property(options, "activeStatus").value, options);
      var r := RequestOn(fetcher, env, baseUrl, options);
      && r.exchanges == [Exchange(fetcher.0, url, init)]
      && r.outcome == FetchJson(fetcher.0, fetcher.1, url, init).outcome
  {
    var queryString := env.queryStringOf(Property(options, "query").value);
    assert ToText(Str("")) + Pathname(baseUrl, queryString) == baseUrl + queryString;
  }

  /**
    With a truthy `activeStatus`, once the origin lookup fulfils with `origin`,
    the request goes to `origin + baseUrl + queryString` on the selected
    transport, after the lookup's own calls.
   */
  lemma CrossRegionRequest(fetcher: (Via, Transport), env: Env, baseUrl: string, options: JsValue, origin: JsValue)
    requires options.Obj?
    requires Truthy(Property(options, "activeStatus").value)
    requires GetRegionalOriginOn(fetcher, env, options).outcome == Fulfilled(origin)
    ensures var url := ToText(origin) + baseUrl + env.queryStringOf(Property(options, "query").value);
      var init := FetchInit(Property(options, "activeStatus").value, options);
      var r := RequestOn(fetcher, env, baseUrl, options);
      && r.exchanges == GetRegionalOriginOn(fetcher, env, options).exchanges + [Exchange(fetcher.0, url, init)]
      && r.outcome == FetchJson(fetcher.0, fetcher.1, url, init).outcome
  {
    var queryString := env.queryStringOf(Property(options, "query").value);
    assert RequestOrigin(fetcher, env, options) == GetRegionalOriginOn(fetcher, env, options);
    RequestAfterOrigin(fetcher, env, baseUrl, options, origin);
    assert ToText(origin) + Pathname(baseUrl, queryString) == ToText(origin) + baseUrl + queryString;
  }

  /** Once the origin of a request with options is known, the request goes to that origin with the layered options. */
  lemma RequestAfterOrigin(fetcher: (Via, Transport), env: Env, baseUrl: string, options: JsValue, origin: JsValue)
    requires options.Obj?
    requires RequestOrigin(fetcher, env, options).outcome == Fulfilled(origin)
    ensures var url := ToText(origin) + Pathname(baseUrl, env.queryStringOf(Property(options, "query").value));
      var init := FetchInit(Property(options, "activeStatus").value, options);
      RequestOn(fetcher, env, baseUrl, options) ==
        Traced(FetchJson(fetcher.0, fetcher.1, url, init).outcome,
               RequestOrigin(fetcher, env, options).exchanges + [Exchange(fetcher.0, url, init)])
  {
  }

  /** A request without options sends exactly `DEFAULT_FETCH_OPTIONS`: same-origin credentials and the JSON `Accepts` header. */
  lemma DefaultRequestOptions()
    ensures FetchInit(Undefined, Obj(map[])) == map["credentials" := Str("same-origin"), "headers" := Obj(map["Accepts" := Str("application/json")])]
  {
  }

  /** A cross-region request sends `credentials: 'include'` and `mode: 'cors'` unless the caller's options set them. */
  lemma CrossRegionCredentials(activeStatus: JsValue, options: JsValue)
    requires Truthy(activeStatus)
    ensures var init := FetchInit(activeStatus, options);
      && init["credentials"] == (if "credentials" in Spread(options) then Spread(options)["credentials"] else Include)
      && init["mode"] == (if "mode" in Spread(options) then Spread(options)["mode"] else Cors)
  {
  }

  // ---------------------------------------------------------------- verb helpers

  /**
    The options `post`, `put` and `delete` finally hand to `request` for the
    verb `verb`: `requestWithBody`'s options over `{ ...options, method }`.
    VerbsUseBodyVerbOptions proves that PostOn, PutOn and DeleteOn send these.
   */
  function BodyVerbOptions(env: Env, verb: string, body: JsValue, options: JsValue): Init {
    BodyOptions(env.stringify(body), WithMethod(options, verb))
  }

  /** `post`, `put` and `delete` hand to `request` the verb, the serialised body and the JSON content type over the caller's headers. */
  lemma BodyVerbOptionsFields(env: Env, verb: string, body: JsValue, options: JsValue)
    ensures var fields := BodyVerbOptions(env, verb, body, options);
      && fields.Keys == Spread(options).Keys + {"method", "body", "headers"}
      && fields["method"] == Str(verb)
      && fields["body"] == env.stringify(body)
      && fields["headers"] == Obj(Spread(Field(options, "headers")) + map["Content-Type" := ApplicationJson])
      && (forall k :: k in Spread(options) && k !in {"method", "body", "headers"} ==> fields[k] == Spread(options)[k])
  {
    var withVerb := WithMethod(options, verb);
    assert Property(withVerb, "headers").value == Field(options, "headers");
  }

  /** The layered options of a request whose own options are the object `fields`. */
  lemma InitOfFields(fields: Init)
    ensures var sent := Obj(fields);
      var activeStatus := Property(sent, "activeStatus").value;
      var init := FetchInit(activeStatus, sent);
      && activeStatus == (if "activeStatus" in fields then fields["activeStatus"] else Undefined)
      && (forall k :: k in fields ==> init[k] == fields[k])
      && ("credentials" !in fields ==> init["credentials"] == if Truthy(activeStatus) then Include else SameOrigin)
  {
    assert Spread(Obj(fields)) == fields;
  }

  /**
    What `post`, `put` and `delete` hand to the transport: the verb as
    `method` and the serialised body, whatever the caller passed for them;
    the caller's headers with `Content-Type: application/json` over them,
    in place of the default headers; and every other caller option as it is.
    `activeStatus`, and with it the cross-region layer, passes through.
   */
  lemma BodyVerbInit(env: Env, verb: string, body: JsValue, options: JsValue)
    ensures var sent := Obj(BodyVerbOptions(env, verb, body, options));
      var activeStatus := Property(sent, "activeStatus").value;
      var init := FetchInit(activeStatus, sent);
      && activeStatus == Field(options, "activeStatus")
      && init["method"] == Str(verb)
      && init["body"] == env.stringify(body)
      && init["headers"] == Obj(Spread(Field(options, "headers")) + map["Content-Type" := ApplicationJson])
      && ("credentials" !in Spread(options) ==> init["credentials"] == if Truthy(activeStatus) then Include else SameOrigin)
  {
    BodyVerbOptionsFields(env, verb, body, options);
    CallerFieldsPassThrough(BodyVerbOptions(env, verb, body, options), options);
  }

  /** Options that keep every caller option other than `method`, `body` and `headers` keep its `activeStatus` and `credentials`. */
  lemma CallerFieldsPassThrough(fields: Init, options: JsValue)
    requires fields.Keys == Spread(options).Keys + {"method", "body", "headers"}
    requires forall k :: k in Spread(options) && k !in {"method", "body", "headers"} ==> fields[k] == Spread(options)[k]
    ensures var sent := Obj(fields);
      var activeStatus := Property(sent, "activeStatus").value;
      var init := FetchInit(activeStatus, sent);
      && activeStatus == Field(options, "activeStatus")
      && (forall k :: k in fields ==> init[k] == fields[k])
      && ("credentials" !in Spread(options) ==> init["credentials"] == if Truthy(activeStatus) then Include else SameOrigin)
  {
    InitOfFields(fields);
    assert "activeStatus" !in {"method", "body", "headers"};
    assert "credentials" !in {"method", "body", "headers"};
  }

  /**
    What `get` hands to the transport: method `'get'` whatever the caller
    passed, the caller's headers when it passes any and the default
    `Accepts` header otherwise, and every other caller option as it is.
   */
  lemma GetInit(options: JsValue)
    ensures var sent := WithMethod(options, "get");
      var activeStatus := Property(sent, "activeStatus").value;
      var init := FetchInit(activeStatus, sent);
      && activeStatus == Field(options, "activeStatus")
      && init["method"] == Str("get")
      && init["headers"] == (if "headers" in Spread(options) then Spread(options)["headers"] else DefaultFetchOptions["headers"])
      && (forall k :: k in Spread(options) && k != "method" ==> init[k] == Spread(options)[k])
  {
  }

  // ---------------------------------------------------------------- what each verb sends

  /** The origin lookup a request makes for the caller's own options `{ ...options }`. */
  function CallerOrigin(fetcher: (Via, Transport), env: Env, options: JsValue): Traced {
    RequestOrigin(fetcher, env, Obj(Spread(options)))
  }

  /**
    `r` is what a request to `path` settles to after the origin lookup
    `lookup`: a rejected lookup rejects the request with its reason and
    nothing is sent; a resolved one is followed by exactly one call, on `via`,
    to the origin followed by `path`, and the request settles as that call's
    response is classified.
   */
  predicate SentAfterLookup(r: Traced, lookup: Traced, via: Via, t: Transport, path: string) {
    && (lookup.outcome.Rejected? ==> r == Traced(Rejected(lookup.outcome.reason), lookup.exchanges))
    && (lookup.outcome.Fulfilled? ==>
         && |r.exchanges| == |lookup.exchanges| + 1
         && r.exchanges[..|lookup.exchanges|] == lookup.exchanges
         && r.exchanges[|lookup.exchanges|].via == via
         && r.exchanges[|lookup.exchanges|].url == ToText(lookup.outcome.value) + path
         && r.outcome == FetchJson(via, t, r.exchanges[|lookup.exchanges|].url, r.exchanges[|lookup.exchanges|].init).outcome)
  }

  /** The URL path of a request to `url` with the caller's options. */
  function CallerPath(env: Env, url: string, options: JsValue): string {
    url + env.queryStringOf(Field(options, "query"))
  }

  /** `fields` has the caller's value, or lack of value, for `key`. */
  predicate SameKey(fields: Init, options: JsValue, key: string) {
    && (key in fields <==> key in Spread(options))
    && (key in fields ==> fields[key] == Spread(options)[key])
  }

  lemma KeptField(fields: Init, options: JsValue, key: string)
    requires SameKey(fields, options, key)
    ensures Property(Obj(fields), key).value == Field(options, key)
  {
  }

  /** The origin lookup reads only `activeStatus` and `domain`. */
  lemma SameLookup(fetcher: (Via, Transport), env: Env, o1: JsValue, o2: JsValue)
    requires o1.Obj? && o2.Obj?
    requires Property(o1, "activeStatus") == Property(o2, "activeStatus")
    requires Property(o1, "domain") == Property(o2, "domain")
    ensures RequestOrigin(fetcher, env, o1) == RequestOrigin(fetcher, env, o2)
  {
  }

  /**
    A request whose options are the caller's with only the keys `forced`
    replaced looks the origin up as for the caller's own options, goes to the
    caller's path, and sends every one of its fields, over the defaults that
    the caller's `activeStatus` selects.
   */
  lemma RequestWithCallerFields(fetcher: (Via, Transport), env: Env, url: string, fields: Init, options: JsValue, forced: set<string>)
    requires fields.Keys == Spread(options).Keys + forced
    requires forall k :: k in Spread(options) && k !in forced ==> fields[k] == Spread(options)[k]
    requires "query" !in forced && "activeStatus" !in forced && "domain" !in forced && "credentials" !in forced
    ensures var r := RequestOn(fetcher, env, url, Obj(fields));
      var lookup := CallerOrigin(fetcher, env, options);
      && SentAfterLookup(r, lookup, fetcher.0, fetcher.1, CallerPath(env, url, options))
      && (lookup.outcome.Fulfilled? ==>
            var init := r.exchanges[|lookup.exchanges|].init;
            && init == FetchInit(Field(options, "activeStatus"), Obj(fields))
            && (forall k :: k in fields ==> k in init && init[k] == fields[k])
            && ("credentials" !in Spread(options) ==>
                  "credentials" in init && init["credentials"] == if Truthy(Field(options, "activeStatus")) then Include else SameOrigin))
  {
    assert SameKey(fields, options, "query");
    assert SameKey(fields, options, "activeStatus");
    assert SameKey(fields, options, "domain");
    KeptField(fields, options, "query");
    KeptField(fields, options, "activeStatus");
    KeptField(fields, options, "domain");
    SameLookup(fetcher, env, Obj(fields), Obj(Spread(options)));
    var qs := env.queryStringOf(Field(options, "query"));
    assert Pathname(url, qs) == CallerPath(env, url, options);
    InitOfFields(fields);
  }

  /**
    `r` is what `request(baseUrl, options)` gives: the origin lookup for the
    caller's own options, then, unless it fails, one call to the origin,
    `baseUrl` and the query string, carrying the caller's options over the
    layers its `activeStatus` selects.
   */
  predicate RequestSent(r: Traced, fetcher: (Via, Transport), env: Env, baseUrl: string, options: JsValue) {
    var lookup := CallerOrigin(fetcher, env, options);
    && SentAfterLookup(r, lookup, fetcher.0, fetcher.1, CallerPath(env, baseUrl, options))
    && (lookup.outcome.Fulfilled? ==>
          r.exchanges[|lookup.exchanges|].init == FetchInit(Field(options, "activeStatus"), Obj(Spread(options))))
  }

  /** `request` with any options other than `null`; omitted options count as `{}`. */
  lemma RequestSends(fetcher: (Via, Transport), env: Env, baseUrl: string, options: JsValue)
    requires !options.Null?
    ensures RequestSent(RequestOn(fetcher, env, baseUrl, options), fetcher, env, baseUrl, options)
  {
    if options.Obj? {
      RequestWithCallerFields(fetcher, env, baseUrl, options.props, options, {});
    } else if options.Undefined? {
      RequestSendsUndefined(fetcher, env, baseUrl);
    } else {
      RequestSendsPrimitive(fetcher, env, baseUrl, options);
    }
  }

  lemma RequestSendsUndefined(fetcher: (Via, Transport), env: Env, baseUrl: string)
    ensures RequestSent(RequestOn(fetcher, env, baseUrl, Undefined), fetcher, env, baseUrl, Undefined)
  {
    assert RequestOn(fetcher, env, baseUrl, Undefined) == RequestOn(fetcher, env, baseUrl, Obj(map[]));
    RequestWithCallerFields(fetcher, env, baseUrl, map[], Undefined, {});
  }

  /** A boolean, number, string or array as options has no own properties to read or spread. */
  lemma RequestSendsPrimitive(fetcher: (Via, Transport), env: Env, baseUrl: string, options: JsValue)
    requires !options.Null? && !options.Undefined? && !options.Obj?
    ensures RequestSent(RequestOn(fetcher, env, baseUrl, options), fetcher, env, baseUrl, options)
  {
    var qs := env.queryStringOf(Undefined);
    assert Pathname(baseUrl, qs) == CallerPath(env, baseUrl, options);
  }

  /**
    `request(baseUrl)` with options omitted makes exactly one call, to
    `baseUrl` and the query string of `undefined`, with `DEFAULT_FETCH_OPTIONS`
    and no origin lookup, and settles as that response is classified.
   */
  lemma RequestWithoutOptions(fetcher: (Via, Transport), env: Env, baseUrl: string)
    ensures var url := baseUrl + env.queryStringOf(Undefined);
      var r := RequestOn(fetcher, env, baseUrl, Undefined);
      && r.exchanges == [Exchange(fetcher.0, url, DefaultFetchOptions)]
      && r.outcome == FetchJson(fetcher.0, fetcher.1, url, DefaultFetchOptions).outcome
  {
    RequestSends(fetcher, env, baseUrl, Undefined);
    DefaultRequestOptions();
    assert CallerOrigin(fetcher, env, Undefined) == Traced(Fulfilled(Str("")), []);
    assert Field(Undefined, "activeStatus") == Undefined && Field(Undefined, "query") == Undefined;
    assert Obj(Spread(Undefined)) == Obj(map[]);
    assert FetchInit(Undefined, Obj(map[])) == DefaultFetchOptions;
    assert ToText(Str("")) + CallerPath(env, baseUrl, Undefined) == baseUrl + env.queryStringOf(Undefined);
    var r := RequestOn(fetcher, env, baseUrl, Undefined);
    assert r.exchanges == [r.exchanges[0]];
  }

  /**
    With a truthy `activeStatus`, a failed origin lookup rejects the request
    with the lookup's reason, and the request itself is never sent.
   */
  lemma RegionalFailureStopsRequest(fetcher: (Via, Transport), env: Env, baseUrl: string, options: JsValue, reason: Reason)
    requires !IsNullish(options)
    requires Truthy(Property(options, "activeStatus").value)
    requires GetRegionalOriginOn(fetcher, env, options).outcome == Rejected(reason)
    ensures RequestOn(fetcher, env, baseUrl, options) == Traced(Rejected(reason), GetRegionalOriginOn(fetcher, env, options).exchanges)
  {
  }

  /** The options `post`, `put` and `delete` send for the verb `verb`. */
  predicate BodyVerbInitOf(init: Init, env: Env, verb: string, body: JsValue, options: JsValue) {
    && "method" in init && init["method"] == Str(verb)
    && "body" in init && init["body"] == env.stringify(body)
    && "headers" in init && init["headers"] == Obj(Spread(Field(options, "headers")) + map["Content-Type" := ApplicationJson])
    && (forall k :: k in Spread(options) && k !in {"method", "body", "headers"} ==> k in init && init[k] == Spread(options)[k])
    && ("credentials" !in Spread(options) ==>
          "credentials" in init && init["credentials"] == if Truthy(Field(options, "activeStatus")) then Include else SameOrigin)
  }

  /** A request with a verb's body options: the caller's lookup and path, and BodyVerbInitOf's options. */
  lemma BodyVerbCall(fetcher: (Via, Transport), env: Env, verb: string, url: string, body: JsValue, options: JsValue)
    ensures var r := RequestOn(fetcher, env, url, Obj(BodyVerbOptions(env, verb, body, options)));
      var lookup := CallerOrigin(fetcher, env, options);
      && SentAfterLookup(r, lookup, fetcher.0, fetcher.1, CallerPath(env, url, options))
      && (lookup.outcome.Fulfilled? ==> BodyVerbInitOf(r.exchanges[|lookup.exchanges|].init, env, verb, body, options))
  {
    BodyVerbOptionsFields(env, verb, body, options);
    BodyVerbFieldsSent(fetcher, env, verb, url, body, options, BodyVerbOptions(env, verb, body, options));
  }

  /** BodyVerbCall for any fields shaped as BodyVerbOptionsFields describes. */
  lemma BodyVerbFieldsSent(fetcher: (Via, Transport), env: Env, verb: string, url: string, body: JsValue, options: JsValue, fields: Init)
    requires fields.Keys == Spread(options).Keys + {"method", "body", "headers"}
    requires fields["method"] == Str(verb)
    requires fields["body"] == env.stringify(body)
    requires fields["headers"] == Obj(Spread(Field(options, "headers")) + map["Content-Type" := ApplicationJson])
    requires forall k :: k in Spread(options) && k !in {"method", "body", "headers"} ==> fields[k] == Spread(options)[k]
    ensures var r := RequestOn(fetcher, env, url, Obj(fields));
      var lookup := CallerOrigin(fetcher, env, options);
      && SentAfterLookup(r, lookup, fetcher.0, fetcher.1, CallerPath(env, url, options))
      && (lookup.outcome.Fulfilled? ==> BodyVerbInitOf(r.exchanges[|lookup.exchanges|].init, env, verb, body, options))
  {
    RequestWithCallerFields(fetcher, env, url, fields, options, {"method", "body", "headers"});
  }

  /** `post`, `put` and `delete` hand `request` their verb's body options. */
  lemma VerbsUseBodyVerbOptions(fetcher: (Via, Transport), env: Env, url: string, body: JsValue, options: JsValue)
    ensures PostOn(fetcher, env, url, body, options) == RequestOn(fetcher, env, url, Obj(BodyVerbOptions(env, "post", body, options)))
    ensures PutOn(fetcher, env, url, body, options) == RequestOn(fetcher, env, url, Obj(BodyVerbOptions(env, "put", body, options)))
    ensures DeleteOn(fetcher, env, url, body, options) == RequestOn(fetcher, env, url, Obj(BodyVerbOptions(env, "delete", body, options)))
  {
  }

  /**
    `post(url, body, options)`: after the origin lookup for the caller's
    options, one call to the origin, `url` and the query string, carrying
    method `'post'`, the serialised body, the JSON content type over the
    caller's headers, and every other caller option.
   */
  lemma PostSends(fetcher: (Via, Transport), env: Env, url: string, body: JsValue, options: JsValue)
    ensures var r := PostOn(fetcher, env, url, body, options);
      var lookup := CallerOrigin(fetcher, env, options);
      && SentAfterLookup(r, lookup, fetcher.0, fetcher.1, CallerPath(env, url, options))
      && (lookup.outcome.Fulfilled? ==> BodyVerbInitOf(r.exchanges[|lookup.exchanges|].init, env, "post", body, options))
  {
    VerbsUseBodyVerbOptions(fetcher, env, url, body, options);
    BodyVerbCall(fetcher, env, "post", url, body, options);
  }

  /** `put(url, body, options)`: as `post`, with method `'put'`. */
  lemma PutSends(fetcher: (Via, Transport), env: Env, url: string, body: JsValue, options: JsValue)
    ensures var r := PutOn(fetcher, env, url, body, options);
      var lookup := CallerOrigin(fetcher, env, options);
      && SentAfterLookup(r, lookup, fetcher.0, fetcher.1, CallerPath(env, url, options))
      && (lookup.outcome.Fulfilled? ==> BodyVerbInitOf(r.exchanges[|lookup.exchanges|].init, env, "put", body, options))
  {
    VerbsUseBodyVerbOptions(fetcher, env, url, body, options);
    BodyVerbCall(fetcher, env, "put", url, body, options);
  }

  /** `delete(url, body, options)`: as `post`, with method `'delete'`. */
  lemma DeleteSends(fetcher: (Via, Transport), env: Env, url: string, body: JsValue, options: JsValue)
    ensures var r := DeleteOn(fetcher, env, url, body, options);
      var lookup := CallerOrigin(fetcher, env, options);
      && SentAfterLookup(r, lookup, fetcher.0, fetcher.1, CallerPath(env, url, options))
      && (lookup.outcome.Fulfilled? ==> BodyVerbInitOf(r.exchanges[|lookup.exchanges|].init, env, "delete", body, options))
  {
    VerbsUseBodyVerbOptions(fetcher, env, url, body, options);
    BodyVerbCall(fetcher, env, "delete", url, body, options);
  }

  /** The options `requestWithBody` sends for the caller's `options`. */
  predicate BodyInitOf(init: Init, env: Env, body: JsValue, options: JsValue) {
    && "body" in init && init["body"] == env.stringify(body)
    && "headers" in init && init["headers"] == Obj(Spread(Field(options, "headers")) + map["Content-Type" := ApplicationJson])
    && (forall k :: k in Spread(options) && k !in {"body", "headers"} ==> k in init && init[k] == Spread(options)[k])
    && ("credentials" !in Spread(options) ==>
          "credentials" in init && init["credentials"] == if Truthy(Field(options, "activeStatus")) then Include else SameOrigin)
  }

  /** The fields `requestWithBody` hands to `request`, seen against the caller's options. */
  lemma BodyOptionsFields(env: Env, body: JsValue, options: JsValue)
    requires !options.Null?
    ensures var fields := BodyOptions(env.stringify(body), if options.Undefined? then Obj(map[]) else options);
      && fields.Keys == Spread(options).Keys + {"body", "headers"}
      && fields["body"] == env.stringify(body)
      && fields["headers"] == Obj(Spread(Field(options, "headers")) + map["Content-Type" := ApplicationJson])
      && (forall k :: k in Spread(options) && k !in {"body", "headers"} ==> fields[k] == Spread(options)[k])
  {
    var opts := if options.Undefined? then Obj(map[]) else options;
    assert Spread(opts) == Spread(options);
    assert Property(opts, "headers").value == Field(options, "headers");
  }

  /**
    `requestWithBody(url, body, options)` with options other than `null`:
    after the origin lookup for the caller's options, one call to the
    origin, `url` and the query string, carrying the serialised body, the
    JSON content type over the caller's headers, and every other caller option.
   */
  lemma RequestWithBodySends(fetcher: (Via, Transport), env: Env, url: string, body: JsValue, options: JsValue)
    requires !options.Null?
    ensures var r := RequestWithBodyOn(fetcher, env, url, body, options);
      var lookup := CallerOrigin(fetcher, env, options);
      && SentAfterLookup(r, lookup, fetcher.0, fetcher.1, CallerPath(env, url, options))
      && (lookup.outcome.Fulfilled? ==> BodyInitOf(r.exchanges[|lookup.exchanges|].init, env, body, options))
  {
    var fields := BodyOptions(env.stringify(body), if options.Undefined? then Obj(map[]) else options);
    BodyOptionsFields(env, body, options);
    RequestWithCallerFields(fetcher, env, url, fields, options, {"body", "headers"});
  }

  /** The options `get` sends for the caller's `options`. */
  predicate GetInitOf(init: Init, options: JsValue) {
    && "method" in init && init["method"] == Str("get")
    && "headers" in init && init["headers"] == (if "headers" in Spread(options) then Spread(options)["headers"] else DefaultFetchOptions["headers"])
    && (forall k :: k in Spread(options) && k != "method" ==> k in init && init[k] == Spread(options)[k])
    && ("credentials" !in Spread(options) ==>
          "credentials" in init && init["credentials"] == if Truthy(Field(options, "activeStatus")) then Include else SameOrigin)
  }

  /**
    `get(url, options)`: after the origin lookup for the caller's options,
    one call to the origin, `url` and the query string, carrying method
    `'get'`, the caller's headers or the default ones, and every other caller
    option.
   */
  lemma GetSends(fetcher: (Via, Transport), env: Env, url: string, options: JsValue)
    ensures var r := GetOn(fetcher, env, url, options);
      var lookup := CallerOrigin(fetcher, env, options);
      && SentAfterLookup(r, lookup, fetcher.0, fetcher.1, CallerPath(env, url, options))
      && (lookup.outcome.Fulfilled? ==> GetInitOf(r.exchanges[|lookup.exchanges|].init, options))
  {
    var fields := WithMethod(options, "get").props;
    RequestWithCallerFields(fetcher, env, url, fields, options, {"method"});
    GetInit(options);
  }

  // ---------------------------------------------------------------- transport selection

  /** After `setFetch(f)`, `request` runs on `f`. */
  method SetFetchThenRequest(service: HttpService, f: Transport, env: Env, baseUrl: string, options: JsValue)
    returns (r: Traced)
    modifies service
    ensures service.fetchOverride == Some(f)
    ensures r == RequestOn((Overridden, f), env, baseUrl, options)
  {
    service.SetFetch(Some(f));
    r := service.Request(env, baseUrl, options);
  }

  /** After `setFetch(f)`, a domain configuration is fetched with `f`. */
  method SetFetchThenGetDomainConfig(service: HttpService, f: Transport, env: Env, domain: JsValue)
    returns (r: Traced)
    modifies service
    ensures r.exchanges == [Exchange(Overridden, DomainConfigUrl(domain), DefaultFetchOptions)]
    ensures r.outcome == FetchJson(Overridden, f, DomainConfigUrl(domain), DefaultFetchOptions).outcome
  {
    service.SetFetch(Some(f));
    r := service.GetDomainConfig(env, Obj(map["domain" := domain]));
  }
}
