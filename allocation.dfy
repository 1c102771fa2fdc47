/**
 * The allocation query and its response (internal/kubecost/allocation.go, with the
 * query and point types of internal/kubecost/client.go): the parameters of
 * `/model/allocation`, the classification of the backend's answer, its flattening into
 * cost points, and the two window helpers.
 */
module Allocation {
  import opened Wrappers
  import opened Strings
  import opened KeyOrder
  import opened GoLib
  import opened KubecostErrors

  datatype AllocationQuery = AllocationQuery(
    window: string,
    filter: map<string, string>,
    aggregateBy: seq<string>)

  /** One normalised cost point; `pvCost` is the single persistent-volume field. */
  datatype AllocationPoint = AllocationPoint(
    start: string,
    end: string,
    cost: real,
    cpuCost: real,
    ramCost: real,
    gpuCost: real,
    pvCost: real,
    networkCost: real)

  datatype AllocationResponse = AllocationResponse(items: seq<AllocationPoint>)

  datatype AllocationWindow = AllocationWindow(start: string, end: string)

  /** A backend allocation entry: its name, window and cost breakdown, with the total as the backend reports it. */
  datatype AllocationEntry = AllocationEntry(
    name: string,
    window: AllocationWindow,
    start: string,
    end: string,
    cpuCost: real,
    gpuCost: real,
    networkCost: real,
    loadBalancerCost: real,
    pvCost: real,
    ramCost: real,
    sharedCost: real,
    externalCost: real,
    totalCost: real)

  /** One map of named entries per period. */
  datatype DetailedAllocationResponse = DetailedAllocationResponse(
    code: int,
    status: string,
    message: string,
    data: seq<map<string, AllocationEntry>>)

  const AllocationPath := "/model/allocation"

  // ---------------------------------------------------------------- the query

  /** `fmt.Sprintf(`%s:"%s"`, k, v)` */
  function FilterTerm(k: string, v: string): string
  {
    k + ":\"" + v + "\""
  }

  /** The filter terms a loop over `filter` collects when it visits the keys in `order`. */
  function FilterTerms(filter: map<string, string>, order: seq<string>): seq<string>
    requires forall i :: 0 <= i < |order| ==> order[i] in filter
  {
    Image(filter, order, FilterTerm)
  }

  /**
   * The URL BuildAllocationURL produces from `base` when the filter map is visited in
   * `order`: the window verbatim, the filter and the aggregation only when non-empty,
   * and the three fixed switches.
   */
  function AllocationUrl(base: string, q: AllocationQuery, order: seq<string>): (u: Url)
    requires IsKeyOrder(q.filter, order)
    ensures u.base == base && u.path == "/model/allocation"
    ensures "window" in u.query && u.query["window"] == q.window
    ensures "accumulate" in u.query && u.query["accumulate"] == "false"
    ensures "idle" in u.query && u.query["idle"] == "false"
    ensures "shareIdle" in u.query && u.query["shareIdle"] == "false"
    ensures "filter" in u.query <==> |q.filter| > 0
    ensures "filter" in u.query ==> u.query["filter"] == Join(FilterTerms(q.filter, order), "+")
    ensures "aggregate" in u.query <==> |q.aggregateBy| > 0
    ensures "aggregate" in u.query ==> u.query["aggregate"] == Join(q.aggregateBy, ",")
    ensures u.query.Keys <= {"window", "filter", "aggregate", "accumulate", "idle", "shareIdle"}
  {
    var params := map["window" := q.window];
    var params := if |q.filter| > 0 then params["filter" := Join(FilterTerms(q.filter, order), "+")] else params;
    var params := if |q.aggregateBy| > 0 then params["aggregate" := Join(q.aggregateBy, ",")] else params;
    Url(base, AllocationPath, params["accumulate" := "false"]["idle" := "false"]["shareIdle" := "false"])
  }

  /** Exactly one term per filter entry, whatever the order. */
  lemma {:induction false} FilterTermsOnePerEntry(filter: map<string, string>, order: seq<string>)
    requires IsKeyOrder(filter, order)
    ensures |FilterTerms(filter, order)| == |filter|
    ensures forall k :: k in filter ==> FilterTerm(k, filter[k]) in FilterTerms(filter, order)
    ensures forall i :: 0 <= i < |order| ==>
              FilterTerms(filter, order)[i] == FilterTerm(order[i], filter[order[i]])
  {
    KeyOrderLength(filter, order);
    forall k | k in filter ensures FilterTerm(k, filter[k]) in FilterTerms(filter, order) {
      var i :| 0 <= i < |order| && order[i] == k;
      assert FilterTerms(filter, order)[i] == FilterTerm(k, filter[k]);
    }
  }

  /** Two iteration orders give the same terms, permuted. */
  lemma {:induction false} FilterTermsOrderIndependent(filter: map<string, string>, o1: seq<string>, o2: seq<string>)
    requires IsKeyOrder(filter, o1) && IsKeyOrder(filter, o2)
    ensures multiset(FilterTerms(filter, o1)) == multiset(FilterTerms(filter, o2))
  {
    ImageOrderIndependent(filter, o1, o2, FilterTerm);
  }

  /** A two-entry filter is joined in one of the two orders, and nothing else. */
  lemma {:induction false} TwoEntryFilter(k1: string, v1: string, k2: string, v2: string, order: seq<string>)
    requires k1 != k2
    requires IsKeyOrder(map[k1 := v1, k2 := v2], order)
    ensures var value := Join(FilterTerms(map[k1 := v1, k2 := v2], order), "+");
            value == FilterTerm(k1, v1) + "+" + FilterTerm(k2, v2) ||
            value == FilterTerm(k2, v2) + "+" + FilterTerm(k1, v1)
  {
    var f := map[k1 := v1, k2 := v2];
    assert |f.Keys| == 2 by { assert f.Keys == {k1, k2}; }
    KeyOrderLength(f, order);
    assert order[0] != order[1];
    var terms := FilterTerms(f, order);
    assert terms == [FilterTerm(order[0], f[order[0]]), FilterTerm(order[1], f[order[1]])];
    assert Join(terms, "+") == terms[0] + "+" + terms[1] by {
      assert terms[1..] == [terms[1]];
    }
  }

  /** The aggregate parameter names its keys: splitting it on "," gives them back in order. */
  lemma {:induction false} AggregateRoundTrip(keys: seq<string>)
    requires |keys| > 0
    requires forall i :: 0 <= i < |keys| ==> ',' !in keys[i]
    ensures Split(Join(keys, ","), ',') == keys
  {
    SplitJoin(keys, ',');
  }

  // ---------------------------------------------------------------- the response

  /** The headers of the GET request: a bearer token only when one is configured. */
  function DetailedHeaders(apiToken: string): (h: map<string, string>)
    ensures "Authorization" in h <==> apiToken != ""
    ensures "Authorization" in h ==> h["Authorization"] == "Bearer " + apiToken
    ensures "Accept" in h && h["Accept"] == "application/json"
    ensures h.Keys <= {"Authorization", "Accept"}
  {
    var h := if apiToken != "" then map["Authorization" := "Bearer " + apiToken] else map[];
    h["Accept" := "application/json"]
  }

  function DetailedRequest(apiToken: string, u: Url): Request
  {
    Request("GET", u, DetailedHeaders(apiToken), "")
  }

  /**
   * GetDetailedAllocation's decision on a response: an HTTP status of 400 or more fails
   * before the body is decoded, then a decoding failure, then an application code other
   * than 200; only what passes all three is returned, unchanged.
   */
  function CheckDetailed(resp: HttpResult<DetailedAllocationResponse>): (r: Result<DetailedAllocationResponse, Error>)
    ensures r.Success? <==> resp.Received? && resp.status < 400 && resp.decoded.Some? && resp.decoded.value.code == 200
    ensures r.Success? ==> r.value == resp.decoded.value
    ensures resp.TransportFailure? ==> r == Failure(ExecutingRequest(resp.reason))
    ensures resp.Received? && resp.status >= 400 ==> r == Failure(ApiStatus(resp.status, resp.body))
    ensures resp.Received? && resp.status < 400 && resp.decoded.None? ==> r == Failure(DecodingResponse)
    ensures resp.Received? && resp.status < 400 && resp.decoded.Some? && resp.decoded.value.code != 200 ==>
              r == Failure(ApiCode(resp.decoded.value.code, resp.decoded.value.message))
  {
    match resp
    case TransportFailure(reason) => Failure(ExecutingRequest(reason))
    case Received(status, body, decoded) =>
      if status >= 400 then Failure(ApiStatus(status, body))
      else match decoded
        case None => Failure(DecodingResponse)
        case Some(d) => if d.code != 200 then Failure(ApiCode(d.code, d.message)) else Success(d)
  }

  /** An HTTP error does not depend on what the body would decode to, even valid JSON. */
  lemma {:induction false} HttpErrorBeforeDecoding(status: int, body: string, d1: Option<DetailedAllocationResponse>,
                                d2: Option<DetailedAllocationResponse>)
    requires status >= 400
    ensures CheckDetailed(Received(status, body, d1)) == CheckDetailed(Received(status, body, d2))
    ensures CheckDetailed(Received(status, body, d1)).Failure?
  {
  }

  // ---------------------------------------------------------------- normalisation

  /** The point for one entry: its own start and end preferred over its window's; the
      total cost and the category costs copied as they are. */
  function PointFor(e: AllocationEntry): AllocationPoint
  {
    AllocationPoint(
      if e.start != "" then e.start else e.window.start,
      if e.end != "" then e.end else e.window.end,
      e.totalCost, e.cpuCost, e.ramCost, e.gpuCost, e.pvCost, e.networkCost)
  }

  function EntryPoint(name: string, e: AllocationEntry): AllocationPoint
  {
    PointFor(e)
  }

  /** One key order per period. */
  ghost predicate KeyOrders(data: seq<map<string, AllocationEntry>>, orders: seq<seq<string>>)
  {
    |orders| == |data| && forall p :: 0 <= p < |data| ==> IsKeyOrder(data[p], orders[p])
  }

  function PeriodPoints(period: map<string, AllocationEntry>, order: seq<string>): seq<AllocationPoint>
    requires IsKeyOrder(period, order)
  {
    Image(period, order, EntryPoint)
  }

  /** The points of the periods in sequence order, each period's in its key order. */
  function PointsFor(data: seq<map<string, AllocationEntry>>, orders: seq<seq<string>>): seq<AllocationPoint>
    requires KeyOrders(data, orders)
    decreases |data|
  {
    if data == [] then []
    else
      var n := |data| - 1;
      assert KeyOrders(data[..n], orders[..n]);
      PointsFor(data[..n], orders[..n]) + PeriodPoints(data[n], orders[n])
  }

  /** The number of entries over all periods. */
  function EntryCount(data: seq<map<string, AllocationEntry>>): nat
    decreases |data|
  {
    if data == [] then 0 else EntryCount(data[..|data| - 1]) + |data[|data| - 1]|
  }

  /**
   * The inner loop of ConvertToSimpleResponse: one point per entry of a period, appended
   * to `items` in the order the loop visits the period map.
   */
  method AppendPeriodPoints(items: seq<AllocationPoint>, dayData: map<string, AllocationEntry>)
    returns (out: seq<AllocationPoint>, ghost order: seq<string>)
    ensures IsKeyOrder(dayData, order)
    ensures out == items + PeriodPoints(dayData, order)
  {
    out := items;
    order := [];
    var remaining := dayData.Keys;
    while remaining != {}
      invariant remaining <= dayData.Keys
      invariant Distinct(order)
      invariant forall i :: 0 <= i < |order| ==> order[i] in dayData && order[i] !in remaining
      invariant forall k :: k in dayData ==> k in remaining || k in order
      invariant out == items + Image(dayData, order, EntryPoint)
      decreases remaining
    {
      var key :| key in remaining;
      var entry := dayData[key];
      var start := entry.start;
      var end := entry.end;
      if start == "" && entry.window.start != "" {
        start := entry.window.start;
      }
      if end == "" && entry.window.end != "" {
        end := entry.window.end;
      }
      var point := AllocationPoint(start, end, entry.totalCost, entry.cpuCost, entry.ramCost,
                                   entry.gpuCost, entry.pvCost, entry.networkCost);
      assert point == EntryPoint(key, dayData[key]);
      out := out + [point];
      ImageSnoc(dayData, order, key, EntryPoint);
      order := order + [key];
      remaining := remaining - {key};
    }
  }

  /**
   * ConvertToSimpleResponse: every period in sequence order, every entry of a period in
   * the map's iteration order, one point per entry.
   */
  method ConvertToSimpleResponse(detailed: DetailedAllocationResponse)
    returns (resp: AllocationResponse, ghost orders: seq<seq<string>>)
    ensures KeyOrders(detailed.data, orders)
    ensures resp.items == PointsFor(detailed.data, orders)
  {
    var data := detailed.data;
    var items: seq<AllocationPoint> := [];
    orders := [];
    var p := 0;
    while p < |data|
      invariant 0 <= p <= |data|
      invariant KeyOrders(data[..p], orders)
      invariant items == PointsFor(data[..p], orders)
    {
      ghost var order;
      items, order := AppendPeriodPoints(items, data[p]);
      PointsForSnoc(data, orders, p, order);
      orders := orders + [order];
      p := p + 1;
    }
    assert data[..p] == data;
    resp := AllocationResponse(items);
  }

  /** One more period: its points follow those of the periods before it. */
  lemma {:induction false} PointsForSnoc(data: seq<map<string, AllocationEntry>>, orders: seq<seq<string>>, p: int, order: seq<string>)
    requires 0 <= p < |data|
    requires KeyOrders(data[..p], orders)
    requires IsKeyOrder(data[p], order)
    ensures KeyOrders(data[..p + 1], orders + [order])
    ensures PointsFor(data[..p + 1], orders + [order]) == PointsFor(data[..p], orders) + PeriodPoints(data[p], order)
  {
    var d, o := data[..p + 1], orders + [order];
    assert d[..p] == data[..p];
    assert o[..p] == orders;
    assert KeyOrders(d, o);
  }

  /** The item count is the sum of the period sizes. */
  lemma {:induction false} PointsForCount(data: seq<map<string, AllocationEntry>>, orders: seq<seq<string>>)
    requires KeyOrders(data, orders)
    ensures |PointsFor(data, orders)| == EntryCount(data)
    decreases |data|
  {
    if data != [] {
      var n := |data| - 1;
      assert KeyOrders(data[..n], orders[..n]);
      PointsForCount(data[..n], orders[..n]);
      KeyOrderLength(data[n], orders[n]);
    }
  }

  lemma {:induction false} KeyOrdersPrefix(data: seq<map<string, AllocationEntry>>, orders: seq<seq<string>>, n: nat)
    requires KeyOrders(data, orders) && n <= |data|
    ensures KeyOrders(data[..n], orders[..n])
  {
  }



  /** Every item is the point of one entry of one period, and nothing else. */
  lemma {:induction false} PointsForOrigin(data: seq<map<string, AllocationEntry>>, orders: seq<seq<string>>, i: int)
    requires KeyOrders(data, orders)
    requires 0 <= i < |PointsFor(data, orders)|
    ensures exists p, k :: 0 <= p < |data| && k in data[p] && PointsFor(data, orders)[i] == PointFor(data[p][k])
    decreases |data|
  {
    var n := |data| - 1;
    assert KeyOrders(data[..n], orders[..n]);
    var head := PointsFor(data[..n], orders[..n]);
    if i < |head| {
      PointsForOrigin(data[..n], orders[..n], i);
      var p, k :| 0 <= p < n && k in data[..n][p] && head[i] == PointFor(data[..n][p][k]);
      assert data[p] == data[..n][p];
    } else {
      var j := i - |head|;
      var k := orders[n][j];
      assert PointsFor(data, orders) == head + PeriodPoints(data[n], orders[n]);
      assert PeriodPoints(data[n], orders[n])[j] == EntryPoint(k, data[n][k]);
      assert PointsFor(data, orders)[i] == PointFor(data[n][k]);
    }
  }

  /** Every entry of every period contributes its point. */
  lemma {:induction false} PointsForComplete(data: seq<map<string, AllocationEntry>>, orders: seq<seq<string>>, p: int, k: string)
    requires KeyOrders(data, orders)
    requires 0 <= p < |data| && k in data[p]
    ensures PointFor(data[p][k]) in PointsFor(data, orders)
    decreases |data|
  {
    var n := |data| - 1;
    assert KeyOrders(data[..n], orders[..n]);
    if p < n {
      assert data[..n][p] == data[p];
      PointsForComplete(data[..n], orders[..n], p, k);
    } else {
      var j :| 0 <= j < |orders[n]| && orders[n][j] == k;
      var head := PointsFor(data[..n], orders[..n]);
      assert PointsFor(data, orders) == head + PeriodPoints(data[n], orders[n]);
      assert PeriodPoints(data[n], orders[n])[j] == EntryPoint(k, data[n][k]);
      assert PointsFor(data, orders)[|head| + j] == PointFor(data[n][k]);
    }
  }

  /** Whatever order the maps are iterated in, the same points come out, permuted. */
  lemma {:induction false} PointsForOrderIndependent(data: seq<map<string, AllocationEntry>>,
                                                     o1: seq<seq<string>>, o2: seq<seq<string>>)
    requires KeyOrders(data, o1) && KeyOrders(data, o2)
    ensures multiset(PointsFor(data, o1)) == multiset(PointsFor(data, o2))
    decreases |data|
  {
    if data != [] {
      var n := |data| - 1;
      KeyOrdersPrefix(data, o1, n);
      KeyOrdersPrefix(data, o2, n);
      PointsForOrderIndependent(data[..n], o1[..n], o2[..n]);
      ImageOrderIndependent(data[n], o1[n], o2[n], EntryPoint);
      var a1, b1 := PointsFor(data[..n], o1[..n]), PeriodPoints(data[n], o1[n]);
      var a2, b2 := PointsFor(data[..n], o2[..n]), PeriodPoints(data[n], o2[n]);
      assert PointsFor(data, o1) == a1 + b1;
      assert PointsFor(data, o2) == a2 + b2;
      assert multiset(a1 + b1) == multiset(a1) + multiset(b1);
      assert multiset(a2 + b2) == multiset(a2) + multiset(b2);
    }
  }

  // ---------------------------------------------------------------- windows

  /**
   * `start.Format(RFC3339) + "," + end.Format(RFC3339)`. RFC 3339 text has no comma, so
   * the window splits back into its two timestamps.
   */
  function FormatTimeWindow(lib: Lib, start: Instant, end: Instant): (w: string)
    ensures ',' !in lib.formatRFC3339(start) && ',' !in lib.formatRFC3339(end) ==>
              Split(w, ',') == [lib.formatRFC3339(start), lib.formatRFC3339(end)]
  {
    SplitPair(lib.formatRFC3339(start), ',', lib.formatRFC3339(end));
    lib.formatRFC3339(start) + "," + lib.formatRFC3339(end)
  }

  /** ParseDurationWindow's three results; both times are the zero time on error. */
  datatype DurationWindow = DurationWindow(start: Instant, end: Instant, err: Option<Error>)

  /**
   * A token ending in "d" is a day count read by Sscanf; any other token uses the
   * standard duration grammar. The window ends at `now`.
   */
  function ParseDurationWindow(lib: Lib, now: Instant, window: string): (r: DurationWindow)
    ensures r.err.None? <==>
              if HasSuffix(window, "d") then lib.scanInt(TrimSuffix(window, "d")).Some?
              else lib.parseDuration(window).Some?
    ensures r.err.Some? ==> r == DurationWindow(ZeroTime, ZeroTime, Some(InvalidDurationFormat(window)))
    ensures r.err.None? ==> r.end == now
    ensures r.err.None? && HasSuffix(window, "d") ==>
              r.start == now - lib.scanInt(TrimSuffix(window, "d")).value * Day
    ensures r.err.None? && !HasSuffix(window, "d") ==> r.start == now - lib.parseDuration(window).value
  {
    if HasSuffix(window, "d") then
      match lib.scanInt(TrimSuffix(window, "d"))
      case None => DurationWindow(ZeroTime, ZeroTime, Some(InvalidDurationFormat(window)))
      case Some(d) => DurationWindow(now - d * Day, now, None)
    else
      match lib.parseDuration(window)
      case None => DurationWindow(ZeroTime, ZeroTime, Some(InvalidDurationFormat(window)))
      case Some(duration) => DurationWindow(now - duration, now, None)
  }

  /** A token "<n>d" whose number reads as N spans exactly N days ending now. */
  lemma {:induction false} DayTokenSpan(lib: Lib, now: Instant, number: string)
    requires lib.scanInt(number).Some?
    ensures var r := ParseDurationWindow(lib, now, number + "d");
            r.err.None? && r.end == now && r.end - r.start == lib.scanInt(number).value * Day
  {
    var w := number + "d";
    assert HasSuffix(w, "d") by { assert w[|w| - 1..] == "d"; }
    assert TrimSuffix(w, "d") == number by { assert w[..|w| - 1] == number; }
  }
}
