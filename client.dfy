/**
 * The Kubecost client (internal/kubecost/client.go and the Client methods of
 * internal/kubecost/allocation.go). The configuration is fixed at construction; the HTTP
 * client is the one piece of state, created lazily by GetDetailedAllocation when absent
 * and never replaced afterwards.
 */
module KubecostClient {
  import opened Wrappers
  import opened Strings
  import opened KeyOrder
  import opened GoLib
  import opened KubecostErrors
  import opened KubecostConfig
  import opened Allocation

  datatype PredictionRequest = PredictionRequest(
    clusterID: string,
    defaultNamespace: string,
    window: string,
    noUsage: bool,
    workloadSpec: string)

  /** The backend's cost strings, opaque to the adapter. */
  datatype PredictionResponse = PredictionResponse(costBefore: string, costAfter: string, costChange: string)

  const PredictionPath := "/model/prediction/speccost"

  /** The HTTP client used once GetDetailedAllocation has run: the existing one, else one
      built from the configured timeout and TLS choice. */
  function LazyTransport(current: Option<HttpSettings>, cfg: Config): (s: HttpSettings)
    ensures current.Some? ==> s == current.value
    ensures current.None? ==> s == Tuned(cfg.timeout, cfg.tlsSkipVerify)
  {
    match current
    case Some(existing) => existing
    case None => Tuned(cfg.timeout, cfg.tlsSkipVerify)
  }

  /**
   * What EnhancedAllocation returns for query `q`: a base-URL error, the error of the
   * detailed response, or the detailed data flattened in the iteration orders `orders`.
   * `order` is the iteration order of the filter map.
   */
  ghost predicate EnhancedOutcome(cfg: Config, settings: HttpSettings, q: AllocationQuery, lib: Lib,
                                  roundTrip: RoundTrip<DetailedAllocationResponse>,
                                  order: seq<string>, orders: seq<seq<string>>,
                                  r: Result<AllocationResponse, Error>)
  {
    if !lib.urlParses(cfg.baseURL) then r == Failure(InvalidBaseURL(cfg.baseURL))
    else
      && IsKeyOrder(q.filter, order)
      && var d := CheckDetailed(roundTrip(settings, DetailedRequest(cfg.apiToken, AllocationUrl(cfg.baseURL, q, order))));
         match d
         case Failure(e) => r == Failure(e)
         case Success(detailed) =>
           KeyOrders(detailed.data, orders) && r == Success(AllocationResponse(PointsFor(detailed.data, orders)))
  }

  /** Allocation's decision on a response: any status of 300 or more is an error. */
  function CheckAllocation(resp: HttpResult<AllocationResponse>): (r: Result<AllocationResponse, Error>)
    ensures r.Success? <==> resp.Received? && resp.status < 300 && resp.decoded.Some?
    ensures r.Success? ==> r.value == resp.decoded.value
    ensures resp.TransportFailure? ==> r == Failure(Transport(resp.reason))
    ensures resp.Received? && resp.status >= 300 ==> r == Failure(AllocationStatus(resp.status))
    ensures resp.Received? && resp.status < 300 && resp.decoded.None? ==> r == Failure(DecodeFailed)
  {
    match resp
    case TransportFailure(reason) => Failure(Transport(reason))
    case Received(status, _, decoded) =>
      if status >= 300 then Failure(AllocationStatus(status))
      else match decoded
        case None => Failure(DecodeFailed)
        case Some(out) => Success(out)
  }

  /** PredictSpecCost's decision on a response: a status of 400 or more is an error;
      otherwise the decoded costs are returned exactly. */
  function CheckPrediction(resp: HttpResult<PredictionResponse>): (r: Result<PredictionResponse, Error>)
    ensures r.Success? <==> resp.Received? && resp.status < 400 && resp.decoded.Some?
    ensures r.Success? ==> r.value == resp.decoded.value
    ensures resp.TransportFailure? ==> r == Failure(ExecutingRequest(resp.reason))
    ensures resp.Received? && resp.status >= 400 ==> r == Failure(PredictionStatus(resp.status))
    ensures resp.Received? && resp.status < 400 && resp.decoded.None? ==> r == Failure(DecodingResponse)
  {
    match resp
    case TransportFailure(reason) => Failure(ExecutingRequest(reason))
    case Received(status, _, decoded) =>
      if status >= 400 then Failure(PredictionStatus(status))
      else match decoded
        case None => Failure(DecodingResponse)
        case Some(p) => Success(p)
  }

  /** A 3xx answer fails Allocation but not the prediction or detailed-allocation checks. */
  lemma {:induction false} RedirectStatusRules(status: int, body: string, a: AllocationResponse, p: PredictionResponse,
                            d: DetailedAllocationResponse)
    requires 300 <= status < 400 && d.code == 200
    ensures CheckAllocation(Received(status, body, Some(a))) == Failure(AllocationStatus(status))
    ensures CheckPrediction(Received(status, body, Some(p))) == Success(p)
    ensures CheckDetailed(Received(status, body, Some(d))) == Success(d)
  {
  }

  /** Allocation only ever accepts what the prediction check accepts too. */
  lemma {:induction false} AllocationStricterThanPrediction(status: int, body: string, a: Option<AllocationResponse>,
                                         p: Option<PredictionResponse>)
    requires a.Some? <==> p.Some?
    ensures CheckAllocation(Received(status, body, a)).Success? ==> CheckPrediction(Received(status, body, p)).Success?
  {
  }

  /** The headers of Allocation's request: only the bearer token, when configured. */
  function AuthHeaders(apiToken: string): (h: map<string, string>)
    ensures "Authorization" in h <==> apiToken != ""
    ensures "Authorization" in h ==> h["Authorization"] == "Bearer " + apiToken
    ensures h.Keys <= {"Authorization"}
  {
    if apiToken != "" then map["Authorization" := "Bearer " + apiToken] else map[]
  }

  /**
   * NewClient always sets an HTTP client, so the lazy branch of GetDetailedAllocation
   * never runs for its clients: whatever the configuration, the transport they use has
   * neither the configured timeout nor the configured TLS choice.
   */
  lemma {:induction false} NewClientIgnoresTransportConfig(cfg: Config)
    ensures LazyTransport(Some(DefaultClient), cfg) == DefaultClient
    ensures LazyTransport(Some(DefaultClient), cfg) != LazyTransport(None, cfg)
  {
  }

  /** A client from NewConfiguredClient uses exactly the transport the lazy branch builds. */
  lemma {:induction false} ConfiguredClientAppliesConfig(cfg: Config)
    ensures LazyTransport(Some(Tuned(cfg.timeout, cfg.tlsSkipVerify)), cfg) == LazyTransport(None, cfg)
    ensures LazyTransport(None, cfg).timeout == cfg.timeout
    ensures LazyTransport(None, cfg).tlsSkipVerify == cfg.tlsSkipVerify
  {
  }

  class Client {
    const cfg: Config
    var http: Option<HttpSettings>

    /** NewClient: keeps the configuration and a bare HTTP client; it cannot fail. */
    constructor NewClient(cfg: Config)
      ensures this.cfg == cfg && GetConfig() == cfg
      ensures http == Some(DefaultClient)
    {
      this.cfg := cfg;
      http := Some(DefaultClient);
    }

    /**
     * The constructor NewClient evidently means to be: its HTTP client carries the
     * configured timeout and TLS choice, the settings the lazy branch of
     * GetDetailedAllocation would otherwise apply.
     */
    constructor NewConfiguredClient(cfg: Config)
      ensures this.cfg == cfg && GetConfig() == cfg
      ensures http == Some(Tuned(cfg.timeout, cfg.tlsSkipVerify))
    {
      this.cfg := cfg;
      http := Some(Tuned(cfg.timeout, cfg.tlsSkipVerify));
    }

    /** The `&Client{cfg: cfg}` literal: no HTTP client yet. */
    constructor WithoutTransport(cfg: Config)
      ensures this.cfg == cfg && http == None
    {
      this.cfg := cfg;
      http := None;
    }

    /** The configuration the client was built with. */
    function GetConfig(): (c: Config)
      ensures c == cfg
    {
      cfg
    }

    /**
     * BuildAllocationURL: fails exactly when the base URL does not parse; otherwise the
     * allocation URL with the filter terms in the order the loop visited the filter map.
     */
    method BuildAllocationURL(lib: Lib, q: AllocationQuery) returns (r: Result<Url, Error>, ghost order: seq<string>)
      ensures r.Failure? <==> !lib.urlParses(cfg.baseURL)
      ensures r.Failure? ==> r.error == InvalidBaseURL(cfg.baseURL)
      ensures r.Success? ==> IsKeyOrder(q.filter, order) && r.value == AllocationUrl(cfg.baseURL, q, order)
    {
      order := [];
      if !lib.urlParses(cfg.baseURL) {
        r := Failure(InvalidBaseURL(cfg.baseURL));
        return;
      }
      var path := AllocationPath;
      var params: map<string, string> := map[];
      params := params["window" := q.window];
      if |q.filter| > 0 {
        var filters: seq<string> := [];
        var remaining := q.filter.Keys;
        while remaining != {}
          invariant remaining <= q.filter.Keys
          invariant Distinct(order)
          invariant forall i :: 0 <= i < |order| ==> order[i] in q.filter && order[i] !in remaining
          invariant forall k :: k in q.filter ==> k in remaining || k in order
          invariant filters == FilterTerms(q.filter, order)
          decreases remaining
        {
          var k :| k in remaining;
          filters := filters + [FilterTerm(k, q.filter[k])];
          ImageSnoc(q.filter, order, k, FilterTerm);
          order := order + [k];
          remaining := remaining - {k};
        }
        params := params["filter" := Join(filters, "+")];
      }
      if |q.aggregateBy| > 0 {
        params := params["aggregate" := Join(q.aggregateBy, ",")];
      }
      params := params["accumulate" := "false"];
      params := params["idle" := "false"];
      params := params["shareIdle" := "false"];
      r := Success(Url(cfg.baseURL, path, params));
    }

    /**
     * GetDetailedAllocation: a base-URL error returns before any request; otherwise the
     * HTTP client is created if absent and the GET request's response is classified by
     * CheckDetailed.
     */
    method GetDetailedAllocation(lib: Lib, q: AllocationQuery, roundTrip: RoundTrip<DetailedAllocationResponse>)
      returns (r: Result<DetailedAllocationResponse, Error>, ghost order: seq<string>)
      modifies this
      ensures !lib.urlParses(cfg.baseURL) ==> r == Failure(InvalidBaseURL(cfg.baseURL)) && http == old(http)
      ensures lib.urlParses(cfg.baseURL) ==>
                && http == Some(LazyTransport(old(http), cfg))
                && IsKeyOrder(q.filter, order)
                && r == CheckDetailed(roundTrip(http.value, DetailedRequest(cfg.apiToken, AllocationUrl(cfg.baseURL, q, order))))
      ensures old(http).Some? ==> http == old(http)
    {
      var u;
      u, order := BuildAllocationURL(lib, q);
      if u.Failure? {
        r := Failure(u.error);
        return;
      }
      var headers: map<string, string> := map[];
      if cfg.apiToken != "" {
        headers := headers["Authorization" := "Bearer " + cfg.apiToken];
      }
      headers := headers["Accept" := "application/json"];
      if http.None? {
        http := Some(Tuned(cfg.timeout, cfg.tlsSkipVerify));
      }
      var resp := roundTrip(http.value, Request("GET", u.value, headers, ""));
      // The statement form of CheckDetailed, which the ensures ties this match to.
      match resp {
        case TransportFailure(reason) =>
          r := Failure(ExecutingRequest(reason));
        case Received(status, body, decoded) =>
          if status >= 400 {
            r := Failure(ApiStatus(status, body));
          } else if decoded.None? {
            r := Failure(DecodingResponse);
          } else if decoded.value.code != 200 {
            r := Failure(ApiCode(decoded.value.code, decoded.value.message));
          } else {
            r := Success(decoded.value);
          }
      }
    }

    /** EnhancedAllocation: the errors of GetDetailedAllocation unchanged, else its data
        converted by ConvertToSimpleResponse. */
    method EnhancedAllocation(lib: Lib, q: AllocationQuery, roundTrip: RoundTrip<DetailedAllocationResponse>)
      returns (r: Result<AllocationResponse, Error>, ghost order: seq<string>, ghost orders: seq<seq<string>>)
      modifies this
      ensures lib.urlParses(cfg.baseURL) ==> http == Some(LazyTransport(old(http), cfg))
      ensures !lib.urlParses(cfg.baseURL) ==> http == old(http)
      ensures EnhancedOutcome(cfg, LazyTransport(old(http), cfg), q, lib, roundTrip, order, orders, r)
    {
      orders := [];
      var detailed;
      detailed, order := GetDetailedAllocation(lib, q, roundTrip);
      if detailed.Failure? {
        r := Failure(detailed.error);
        return;
      }
      var simple;
      simple, orders := ConvertToSimpleResponse(detailed.value);
      r := Success(simple);
    }

    /**
     * Allocation: URL errors propagate, any status of 300 or more is an error, and the
     * request carries a bearer token exactly when one is configured.
     */
    method Allocation(lib: Lib, q: AllocationQuery, roundTrip: RoundTrip<AllocationResponse>)
      returns (r: Result<AllocationResponse, Error>, ghost order: seq<string>)
      requires http.Some?
      ensures !lib.urlParses(cfg.baseURL) ==> r == Failure(InvalidBaseURL(cfg.baseURL))
      ensures lib.urlParses(cfg.baseURL) ==>
                && IsKeyOrder(q.filter, order)
                && r == CheckAllocation(roundTrip(http.value,
                          Request("GET", AllocationUrl(cfg.baseURL, q, order), AuthHeaders(cfg.apiToken), "")))
    {
      var u;
      u, order := BuildAllocationURL(lib, q);
      if u.Failure? {
        r := Failure(u.error);
        return;
      }
      var headers: map<string, string> := map[];
      if cfg.apiToken != "" {
        headers := headers["Authorization" := "Bearer " + cfg.apiToken];
      }
      var resp := roundTrip(http.value, Request("GET", u.value, headers, ""));
      // The statement form of CheckAllocation, which the ensures ties this match to.
      match resp {
        case TransportFailure(reason) =>
          r := Failure(Transport(reason));
        case Received(status, _, decoded) =>
          if status >= 300 {
            r := Failure(AllocationStatus(status));
          } else if decoded.None? {
            r := Failure(DecodeFailed);
          } else {
            r := Success(decoded.value);
          }
      }
    }

    /**
     * PredictSpecCost: POSTs the workload spec unchanged to the prediction endpoint.
     * clusterID and defaultNamespace are always sent, as given; window only when
     * non-empty; noUsage=true only when requested. The content type is JSON exactly when
     * the spec is valid JSON, YAML otherwise. `sent` is the request put on the wire.
     */
    method PredictSpecCost(lib: Lib, req: PredictionRequest, roundTrip: RoundTrip<PredictionResponse>)
      returns (r: Result<PredictionResponse, Error>, ghost sent: Option<Request>)
      requires http.Some?
      ensures !lib.urlParses(cfg.baseURL) ==> r == Failure(InvalidBaseURL(cfg.baseURL)) && sent == None
      ensures lib.urlParses(cfg.baseURL) ==> sent.Some? && r == CheckPrediction(roundTrip(http.value, sent.value))
      ensures sent.Some? ==>
                var s := sent.value;
                && s.verb == "POST" && s.body == req.workloadSpec
                && s.url.base == cfg.baseURL && s.url.path == "/model/prediction/speccost"
                && "clusterID" in s.url.query && s.url.query["clusterID"] == req.clusterID
                && "defaultNamespace" in s.url.query && s.url.query["defaultNamespace"] == req.defaultNamespace
                && ("window" in s.url.query <==> req.window != "")
                && ("window" in s.url.query ==> s.url.query["window"] == req.window)
                && ("noUsage" in s.url.query <==> req.noUsage)
                && ("noUsage" in s.url.query ==> s.url.query["noUsage"] == "true")
                && s.url.query.Keys <= {"clusterID", "defaultNamespace", "window", "noUsage"}
                && "Content-Type" in s.headers
                && s.headers["Content-Type"] == (if lib.isJSON(req.workloadSpec) then "application/json" else "application/yaml")
                && "Accept" in s.headers && s.headers["Accept"] == "application/json"
                && ("Authorization" in s.headers <==> cfg.apiToken != "")
                && ("Authorization" in s.headers ==> s.headers["Authorization"] == "Bearer " + cfg.apiToken)
                && s.headers.Keys <= {"Content-Type", "Accept", "Authorization"}
    {
      if !lib.urlParses(cfg.baseURL) {
        r, sent := Failure(InvalidBaseURL(cfg.baseURL)), None;
        return;
      }
      var path := PredictionPath;
      var params: map<string, string> := map[];
      params := params["clusterID" := req.clusterID];
      params := params["defaultNamespace" := req.defaultNamespace];
      if req.window != "" {
        params := params["window" := req.window];
      }
      if req.noUsage {
        params := params["noUsage" := "true"];
      }
      var contentType := "application/yaml";
      if lib.isJSON(req.workloadSpec) {
        contentType := "application/json";
      }
      var headers: map<string, string> := map[];
      headers := headers["Content-Type" := contentType];
      headers := headers["Accept" := "application/json"];
      if cfg.apiToken != "" {
        headers := headers["Authorization" := "Bearer " + cfg.apiToken];
      }
      var request := Request("POST", Url(cfg.baseURL, path, params), headers, req.workloadSpec);
      sent := Some(request);
      var resp := roundTrip(http.value, request);
      // The statement form of CheckPrediction, which the ensures ties this match to.
      match resp {
        case TransportFailure(reason) =>
          r := Failure(ExecutingRequest(reason));
        case Received(status, _, decoded) =>
          if status >= 400 {
            r := Failure(PredictionStatus(status));
          } else if decoded.None? {
            r := Failure(DecodingResponse);
          } else {
            r := Success(decoded.value);
          }
      }
    }
  }
}
