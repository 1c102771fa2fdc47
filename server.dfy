/**
 * The cost-source server (internal/server/kubecost_server.go): resource IDs to
 * allocation filters, allocation points to actual-cost results, the 30-day average
 * projection, and the constant answers of Name, Supports and GetPricingSpec.
 */
module Server {
  import opened Wrappers
  import opened Strings
  import opened KeyOrder
  import opened GoLib
  import opened KubecostErrors
  import opened KubecostConfig
  import opened Allocation
  import opened KubecostClient

  datatype ActualCostQuery = ActualCostQuery(resourceId: string, start: string, end: string)

  datatype ActualCostResult = ActualCostResult(
    timestamp: Instant,
    cost: real,
    usageAmount: real,
    usageUnit: string,
    source: string)

  datatype PriceInfo = PriceInfo(unitPrice: real, costPerMonth: real, currency: string, billingDetail: string)

  datatype PricingSpec = PricingSpec(
    provider: string,
    resourceType: string,
    sku: string,
    region: string,
    billingMode: string,
    currency: string,
    description: string,
    ratePerUnit: real,
    pluginMetadata: map<string, string>)

  const PluginName := "kubecost"

  /** The name the plugin answers to, which is also the source tag of its results. */
  function Name(): (name: string)
    ensures name == "kubecost"
  {
    PluginName
  }

  /** The kinds of resource a resource ID can name. */
  const ResourceKinds := {"namespace", "pod", "controller", "node"}

  /** The four resource types the plugin answers for: "k8s-" followed by a resource kind. */
  function Supports(resourceType: string): (supported: bool)
    ensures supported <==> 4 <= |resourceType| && resourceType[..4] == "k8s-" && resourceType[4..] in ResourceKinds
  {
    resourceType == "k8s-namespace" || resourceType == "k8s-pod" ||
    resourceType == "k8s-controller" || resourceType == "k8s-node"
  }

  /**
   * The explicit range "start,end" as given, or the default shorthand when either is
   * missing. An explicit range holds a comma, so the default appears exactly when a time
   * is missing, and a range of comma-free times splits back into them, verbatim.
   */
  function WindowFromTimes(start: string, end: string): (w: string)
    ensures w == "30d" <==> start == "" || end == ""
    ensures start != "" && end != "" && ',' !in start && ',' !in end ==> Split(w, ',') == [start, end]
  {
    if start == "" || end == "" then "30d"
    else
      SplitPair(start, ',', end);
      assert (start + "," + end)[|start|] == ',';
      assert ',' !in "30d";
      start + "," + end
  }

  /**
   * The filter for a resource ID "<kind>/<segment>/...": dispatch on the first segment,
   * each kind needing a minimum number of segments; anything else is no filter.
   */
  function ResourceFilter(resourceId: string): (filter: map<string, string>)
    ensures filter.Keys <= {"namespace", "pod", "controller", "node"}
    ensures forall k :: k in filter ==> '/' !in filter[k]
    ensures filter != map[] ==> Supports("k8s-" + Split(resourceId, '/')[0])
  {
    var parts := Split(resourceId, '/');
    if parts[0] == "namespace" then
      if |parts| >= 2 then map["namespace" := parts[1]] else map[]
    else if parts[0] == "pod" then
      if |parts| >= 3 then map["namespace" := parts[1], "pod" := parts[2]] else map[]
    else if parts[0] == "controller" then
      if |parts| >= 3 then map["namespace" := parts[1], "controller" := parts[2]] else map[]
    else if parts[0] == "node" then
      if |parts| >= 2 then map["node" := parts[1]] else map[]
    else map[]
  }

  /** The allocation query GetActualCost sends: no aggregation. */
  function ActualAllocationQuery(q: ActualCostQuery): AllocationQuery
  {
    AllocationQuery(WindowFromTimes(q.start, q.end), ResourceFilter(q.resourceId), [])
  }

  /** The result for one point; an unparsable start gives the zero time. */
  function ResultFor(lib: Lib, it: AllocationPoint): (r: ActualCostResult)
  {
    var start := match lib.parseRFC3339(it.start) case Some(t) => t case None => ZeroTime;
    ActualCostResult(start, it.cost, 0.0, "", PluginName)
  }

  /** The results for a sequence of points, one each, in order. */
  function Results(lib: Lib, items: seq<AllocationPoint>): seq<ActualCostResult>
  {
    seq(|items|, i requires 0 <= i < |items| => ResultFor(lib, items[i]))
  }

  function SumCosts(results: seq<ActualCostResult>): real
    decreases |results|
  {
    if results == [] then 0.0 else SumCosts(results[..|results| - 1]) + results[|results| - 1].cost
  }

  /** The projection from a history of results: none gives only the currency; otherwise
      the mean cost is the unit price and thirty of it the monthly cost. */
  function ProjectionOf(results: seq<ActualCostResult>): (p: PriceInfo)
    ensures p.currency == "USD"
    ensures p.costPerMonth == 30.0 * p.unitPrice
    ensures |results| == 0 <==> p.billingDetail == ""
    ensures |results| == 0 ==> p.unitPrice == 0.0
    ensures |results| > 0 ==> p.billingDetail == "kubecost-avg-daily"
    ensures |results| > 0 ==> p.unitPrice * (|results| as real) == SumCosts(results)
  {
    if |results| == 0 then PriceInfo(0.0, 0.0, "USD", "")
    else
      var daily := SumCosts(results) / (|results| as real);
      PriceInfo(daily, daily * 30.0, "USD", "kubecost-avg-daily")
  }

  /** The time range GetProjectedCost asks for: the thirty days before `now`. */
  function ProjectedCostQuery(lib: Lib, now: Instant): ActualCostQuery
  {
    ActualCostQuery("", lib.formatRFC3339(now - 30 * Day), lib.formatRFC3339(now))
  }

  function GetPricingSpec(resourceType: string): (spec: PricingSpec)
    ensures spec.resourceType == resourceType
    ensures spec.provider == "kubernetes" && spec.billingMode == "per_day" && spec.currency == "USD"
    ensures spec.ratePerUnit == 0.0 && spec.sku == "" && spec.region == ""
    ensures spec.pluginMetadata == map["source" := "kubecost"]
  {
    PricingSpec("kubernetes", resourceType, "", "", "per_day", "USD",
                "Kubecost-derived projection for " + resourceType, 0.0, map["source" := "kubecost"])
  }

  /** The mapping half of GetActualCost: one result per point, appended in order. */
  method ResultsOf(lib: Lib, items: seq<AllocationPoint>) returns (results: seq<ActualCostResult>)
    ensures results == Results(lib, items)
  {
    results := [];
    var i := 0;
    while i < |items|
      invariant 0 <= i <= |items|
      invariant |results| == i
      invariant forall j :: 0 <= j < i ==> results[j] == ResultFor(lib, items[j])
    {
      var it := items[i];
      var start := match lib.parseRFC3339(it.start) case Some(t) => t case None => ZeroTime;
      results := results + [ActualCostResult(start, it.cost, 0.0, "", "kubecost")];
      i := i + 1;
    }
  }

  /** The averaging half of GetProjectedCost: the running sum of the costs, then the mean. */
  method AverageDaily(results: seq<ActualCostResult>) returns (p: PriceInfo)
    ensures p == ProjectionOf(results)
  {
    if |results| == 0 {
      return PriceInfo(0.0, 0.0, "USD", "");
    }
    var sum := 0.0;
    var i := 0;
    while i < |results|
      invariant 0 <= i <= |results|
      invariant sum == SumCosts(results[..i])
    {
      assert results[..i + 1][..i] == results[..i];
      sum := sum + results[i].cost;
      i := i + 1;
    }
    assert results[..i] == results;
    var daily := sum / (|results| as real);
    var monthly := daily * 30.0;
    p := PriceInfo(daily, monthly, "USD", "kubecost-avg-daily");
  }

  class KubecostServer {
    const cli: Client

    constructor NewKubecostServer(cli: Client)
      ensures this.cli == cli
    {
      this.cli := cli;
    }

    /**
     * GetActualCost: the resource ID becomes the filter and the two times the window;
     * a client error is returned as it is; otherwise one result per item, in order.
     */
    method GetActualCost(lib: Lib, q: ActualCostQuery, roundTrip: RoundTrip<DetailedAllocationResponse>)
      returns (r: Result<seq<ActualCostResult>, Error>,
               ghost enhanced: Result<AllocationResponse, Error>, ghost order: seq<string>, ghost orders: seq<seq<string>>)
      modifies cli
      ensures lib.urlParses(cli.cfg.baseURL) ==> cli.http == Some(LazyTransport(old(cli.http), cli.cfg))
      ensures !lib.urlParses(cli.cfg.baseURL) ==> cli.http == old(cli.http)
      ensures EnhancedOutcome(cli.cfg, LazyTransport(old(cli.http), cli.cfg), ActualAllocationQuery(q), lib,
                              roundTrip, order, orders, enhanced)
      ensures enhanced.Failure? ==> r == Failure(enhanced.error)
      ensures enhanced.Success? ==> r == Success(Results(lib, enhanced.value.items))
    {
      var window := WindowFromTimes(q.start, q.end);
      var filter: map<string, string> := map[];
      var parts := Split(q.resourceId, '/');
      if |parts| > 0 {
        if parts[0] == "namespace" {
          if |parts| >= 2 {
            filter := filter["namespace" := parts[1]];
          }
        } else if parts[0] == "pod" {
          if |parts| >= 3 {
            filter := filter["namespace" := parts[1]];
            filter := filter["pod" := parts[2]];
          }
        } else if parts[0] == "controller" {
          if |parts| >= 3 {
            filter := filter["namespace" := parts[1]];
            filter := filter["controller" := parts[2]];
          }
        } else if parts[0] == "node" {
          if |parts| >= 2 {
            filter := filter["node" := parts[1]];
          }
        }
      }
      assert filter == ResourceFilter(q.resourceId);
      var resp;
      resp, order, orders := cli.EnhancedAllocation(lib, AllocationQuery(window, filter, []), roundTrip);
      enhanced := resp;
      if resp.Failure? {
        r := Failure(resp.error);
        return;
      }
      var results := ResultsOf(lib, resp.value.items);
      r := Success(results);
    }

    /**
     * GetProjectedCost: the actual cost of the last thirty days with no filter, averaged;
     * an error of that call is returned as it is.
     */
    method GetProjectedCost(lib: Lib, now: Instant, roundTrip: RoundTrip<DetailedAllocationResponse>)
      returns (r: Result<PriceInfo, Error>, ghost actual: Result<seq<ActualCostResult>, Error>,
               ghost enhanced: Result<AllocationResponse, Error>, ghost order: seq<string>, ghost orders: seq<seq<string>>)
      modifies cli
      ensures lib.urlParses(cli.cfg.baseURL) ==> cli.http == Some(LazyTransport(old(cli.http), cli.cfg))
      ensures !lib.urlParses(cli.cfg.baseURL) ==> cli.http == old(cli.http)
      ensures EnhancedOutcome(cli.cfg, LazyTransport(old(cli.http), cli.cfg),
                              ActualAllocationQuery(ProjectedCostQuery(lib, now)), lib, roundTrip, order, orders, enhanced)
      ensures enhanced.Failure? ==> actual == Failure(enhanced.error)
      ensures enhanced.Success? ==> actual == Success(Results(lib, enhanced.value.items))
      ensures actual.Failure? ==> r == Failure(actual.error)
      ensures actual.Success? ==> r == Success(ProjectionOf(actual.value))
    {
      var end := now;
      var start := end - 30 * Day;
      var costs;
      costs, enhanced, order, orders := GetActualCost(lib, ActualCostQuery("", lib.formatRFC3339(start), lib.formatRFC3339(end)), roundTrip);
      actual := costs;
      if costs.Failure? {
        r := Failure(costs.error);
        return;
      }
      var projection := AverageDaily(costs.value);
      r := Success(projection);
    }
  }

  // ---------------------------------------------------------------- resource IDs

  /** The four documented ID shapes, with segments free of '/' (possibly empty), give their filters. */
  lemma {:induction false} ResourceIdShapes(ns: string, name: string)
    requires '/' !in ns && '/' !in name
    ensures ResourceFilter("namespace/" + ns) == map["namespace" := ns]
    ensures ResourceFilter("pod/" + ns + "/" + name) == map["namespace" := ns, "pod" := name]
    ensures ResourceFilter("controller/" + ns + "/" + name) == map["namespace" := ns, "controller" := name]
    ensures ResourceFilter("node/" + name) == map["node" := name]
  {
    TwoSegments("namespace", ns);
    assert "namespace/" + ns == "namespace" + "/" + ns;
    ThreeSegments("pod", ns, name);
    assert "pod/" + ns + "/" + name == "pod" + "/" + ns + "/" + name;
    ThreeSegments("controller", ns, name);
    assert "controller/" + ns + "/" + name == "controller" + "/" + ns + "/" + name;
    TwoSegments("node", name);
    assert "node/" + name == "node" + "/" + name;
  }

  lemma {:induction false} TwoSegments(kind: string, a: string)
    requires '/' !in kind && '/' !in a
    ensures Split(kind + "/" + a, '/') == [kind, a]
  {
    SplitAround(kind, '/', a);
    SplitNoSeparator(kind, '/');
    SplitNoSeparator(a, '/');
  }

  lemma {:induction false} ThreeSegments(kind: string, a: string, b: string)
    requires '/' !in kind && '/' !in a && '/' !in b
    ensures Split(kind + "/" + a + "/" + b, '/') == [kind, a, b]
  {
    TwoSegments(kind, a);
    SplitAround(kind + "/" + a, '/', b);
    SplitNoSeparator(b, '/');
  }

  /** An ID of a known kind with too few segments is silently no filter at all. */
  lemma {:induction false} ShortResourceIds(ns: string)
    requires '/' !in ns
    ensures ResourceFilter("pod/" + ns) == map[]
    ensures ResourceFilter("controller/" + ns) == map[]
    ensures ResourceFilter("namespace") == map[] && ResourceFilter("node") == map[]
    ensures ResourceFilter("") == map[]
  {
    TwoSegments("pod", ns);
    assert "pod/" + ns == "pod" + "/" + ns;
    TwoSegments("controller", ns);
    assert "controller/" + ns == "controller" + "/" + ns;
    SplitNoSeparator("namespace", '/');
    SplitNoSeparator("node", '/');
    SplitNoSeparator("", '/');
  }

  /** The bare pod and controller kinds are too short as well. */
  lemma {:induction false} BarePodAndController()
    ensures ResourceFilter("pod") == map[] && ResourceFilter("controller") == map[]
  {
    SplitNoSeparator("pod", '/');
    TooFewSegments("pod");
    SplitNoSeparator("controller", '/');
    TooFewSegments("controller");
  }

  /**
   * An ID with a single segment gives no filter, whatever that segment is, and a pod or
   * controller ID needs three segments.
   */
  lemma {:induction false} TooFewSegments(resourceId: string)
    ensures |Split(resourceId, '/')| < 2 ==> ResourceFilter(resourceId) == map[]
    ensures |Split(resourceId, '/')| < 3 && Split(resourceId, '/')[0] in {"pod", "controller"} ==>
              ResourceFilter(resourceId) == map[]
  {
  }

  /** An empty segment is a value like any other. */
  lemma {:induction false} EmptySegmentIsAValue()
    ensures ResourceFilter("namespace/") == map["namespace" := ""]
    ensures ResourceFilter("pod//") == map["namespace" := "", "pod" := ""]
  {
    ResourceIdShapes("", "");
    assert "namespace/" + "" == "namespace/";
    assert "pod/" + "" + "/" + "" == "pod//";
  }

  /** The supported resource types are exactly the four kinds an ID can be dispatched on. */
  lemma {:induction false} SupportedKindsAreFilterKinds(kind: string)
    ensures Supports("k8s-" + kind) <==> kind in {"namespace", "pod", "controller", "node"}
  {
    var rt := "k8s-" + kind;
    assert rt[4..] == kind;
  }

  /** Segments past the third never change the filter. */
  lemma {:induction false} ResourceFilterIgnoresTail(resourceId: string, tail: string)
    requires |Split(resourceId, '/')| >= 3
    ensures ResourceFilter(resourceId + "/" + tail) == ResourceFilter(resourceId)
  {
    SplitAround(resourceId, '/', tail);
  }

  /** Namespace and node IDs read only their second segment: anything after it is ignored. */
  lemma {:induction false} ResourceFilterIgnoresTailOfPair(resourceId: string, tail: string)
    requires |Split(resourceId, '/')| >= 2 && Split(resourceId, '/')[0] in {"namespace", "node"}
    ensures ResourceFilter(resourceId + "/" + tail) == ResourceFilter(resourceId)
  {
    SplitAround(resourceId, '/', tail);
  }

  /** A namespace ID with a surplus segment filters on the namespace alone. */
  lemma {:induction false} NamespaceTailExample()
    ensures ResourceFilter("namespace/a/b") == map["namespace" := "a"]
  {
    var id := "namespace/a";
    assert id == "namespace" + "/" + "a";
    assert id + "/" + "b" == "namespace/a/b";
    SplitPair("namespace", '/', "a");
    ResourceFilterIgnoresTailOfPair(id, "b");
    ResourceIdShapes("a", "");
    assert "namespace/" + "a" == id;
  }

  // ---------------------------------------------------------------- windows

  /** The projection asks for the same window the allocation client builds from two instants. */
  lemma {:induction false} ProjectedWindow(lib: Lib, now: Instant)
    requires lib.formatRFC3339(now - 30 * Day) != "" && lib.formatRFC3339(now) != ""
    ensures var q := ProjectedCostQuery(lib, now);
            WindowFromTimes(q.start, q.end) == FormatTimeWindow(lib, now - 30 * Day, now)
    ensures ActualAllocationQuery(ProjectedCostQuery(lib, now)).filter == map[]
  {
    SplitNoSeparator("", '/');
  }

  // ---------------------------------------------------------------- results

  /** Every actual-cost result carries the total cost of one allocation entry. */
  lemma {:induction false} ResultCostsAreEntryTotals(lib: Lib, data: seq<map<string, AllocationEntry>>, orders: seq<seq<string>>, i: int)
    requires KeyOrders(data, orders)
    requires 0 <= i < |PointsFor(data, orders)|
    ensures exists p, k :: 0 <= p < |data| && k in data[p] &&
              Results(lib, PointsFor(data, orders))[i].cost == data[p][k].totalCost
  {
    PointsForOrigin(data, orders, i);
  }

  lemma {:induction false} ResultsAppend(lib: Lib, a: seq<AllocationPoint>, b: seq<AllocationPoint>)
    ensures Results(lib, a + b) == Results(lib, a) + Results(lib, b)
  {
  }

  /** Reordering the points reorders the results the same way. */
  lemma {:induction false} ResultsPermutation(lib: Lib, a: seq<AllocationPoint>, b: seq<AllocationPoint>)
    requires multiset(a) == multiset(b)
    ensures multiset(Results(lib, a)) == multiset(Results(lib, b))
    decreases |a|
  {
    if a != [] {
      var n := |a| - 1;
      var x := a[n];
      assert a == a[..n] + [x];
      assert x in multiset(b);
      var j :| 0 <= j < |b| && b[j] == x;
      assert b == b[..j] + [x] + b[j + 1..];
      var rest := b[..j] + b[j + 1..];
      CancelOne(a[..n], x, b[..j], b[j + 1..]);
      ResultsPermutation(lib, a[..n], rest);
      ResultsAppend(lib, a[..n], [x]);
      ResultsAppend(lib, b[..j] + [x], b[j + 1..]);
      ResultsAppend(lib, b[..j], [x]);
      ResultsAppend(lib, b[..j], b[j + 1..]);
    }
  }

  // ---------------------------------------------------------------- projection

  lemma {:induction false} SumCostsAppend(a: seq<ActualCostResult>, b: seq<ActualCostResult>)
    ensures SumCosts(a + b) == SumCosts(a) + SumCosts(b)
    decreases |b|
  {
    if b == [] {
      assert a + b == a;
    } else {
      var init := b[..|b| - 1];
      assert (a + b)[..|a + b| - 1] == a + init;
      SumCostsAppend(a, init);
    }
  }

  /** Taking one result out of the middle takes its cost out of the sum. */
  lemma {:induction false} SumCostsRemove(b: seq<ActualCostResult>, j: int)
    requires 0 <= j < |b|
    ensures SumCosts(b) == SumCosts(b[..j] + b[j + 1..]) + b[j].cost
  {
    var pre, x, post := b[..j], b[j], b[j + 1..];
    var front := pre + [x];
    assert b == front + post;
    assert front[..|front| - 1] == pre;
    assert SumCosts(front) == SumCosts(pre) + x.cost;
    SumCostsAppend(front, post);
    SumCostsAppend(pre, post);
  }

  /** The sum of the costs does not depend on the order of the results. */
  lemma {:induction false} SumCostsPermutation(a: seq<ActualCostResult>, b: seq<ActualCostResult>)
    requires multiset(a) == multiset(b)
    ensures SumCosts(a) == SumCosts(b)
    decreases |a|
  {
    if a != [] {
      var n := |a| - 1;
      var x := a[n];
      assert a == a[..n] + [x];
      assert x in multiset(b);
      var j :| 0 <= j < |b| && b[j] == x;
      assert b == b[..j] + [x] + b[j + 1..];
      CancelOne(a[..n], x, b[..j], b[j + 1..]);
      SumCostsPermutation(a[..n], b[..j] + b[j + 1..]);
      SumCostsRemove(b, j);
    }
  }

  lemma {:induction false} SumCostsBounds(results: seq<ActualCostResult>, lo: real, hi: real)
    requires forall i :: 0 <= i < |results| ==> lo <= results[i].cost <= hi
    ensures lo * (|results| as real) <= SumCosts(results) <= hi * (|results| as real)
    decreases |results|
  {
    if results != [] {
      var n := |results| - 1;
      SumCostsBounds(results[..n], lo, hi);
      assert lo * ((n + 1) as real) == lo * (n as real) + lo;
      assert hi * ((n + 1) as real) == hi * (n as real) + hi;
    }
  }

  /** The projected daily price lies between the cheapest and the dearest day. */
  lemma {:induction false} ProjectionMeanBounds(results: seq<ActualCostResult>, lo: real, hi: real)
    requires |results| > 0
    requires forall i :: 0 <= i < |results| ==> lo <= results[i].cost <= hi
    ensures lo <= ProjectionOf(results).unitPrice <= hi
  {
    SumCostsBounds(results, lo, hi);
    var n := |results| as real;
    var daily := SumCosts(results) / n;
    assert daily * n == SumCosts(results);
    if daily < lo {
      assert daily * n < lo * n;
    }
    if daily > hi {
      assert daily * n > hi * n;
    }
  }

  /** Two days costing 100 and 200 project 150 a day and 4500 a month. */
  lemma {:induction false} ProjectionExample(t1: Instant, t2: Instant)
    ensures ProjectionOf([ActualCostResult(t1, 100.0, 0.0, "", PluginName), ActualCostResult(t2, 200.0, 0.0, "", PluginName)])
            == PriceInfo(150.0, 4500.0, "USD", "kubecost-avg-daily")
  {
    var rs := [ActualCostResult(t1, 100.0, 0.0, "", PluginName), ActualCostResult(t2, 200.0, 0.0, "", PluginName)];
    assert rs[..1][..0] == [];
    assert rs[..|rs| - 1] == rs[..1];
    assert SumCosts(rs[..1]) == 100.0;
    assert SumCosts(rs) == 300.0;
  }

  /**
   * Over exact costs, the projection does not depend on the order in which Go happens
   * to visit the allocation maps, although the list of results does.
   */
  lemma {:induction false} ProjectionOrderIndependent(lib: Lib, data: seq<map<string, AllocationEntry>>,
                                   o1: seq<seq<string>>, o2: seq<seq<string>>)
    requires KeyOrders(data, o1) && KeyOrders(data, o2)
    ensures ProjectionOf(Results(lib, PointsFor(data, o1))) == ProjectionOf(Results(lib, PointsFor(data, o2)))
  {
    var a := Results(lib, PointsFor(data, o1));
    var b := Results(lib, PointsFor(data, o2));
    PointsForOrderIndependent(data, o1, o2);
    ResultsPermutation(lib, PointsFor(data, o1), PointsFor(data, o2));
    SumCostsPermutation(a, b);
    assert |a| == |multiset(a)| == |multiset(b)| == |b|;
  }

  /**
   * A result keeps the point's cost, carries the plugin's own name as its source and the
   * parsed start as its timestamp (the zero time when the start does not parse); the
   * currency of a projection agrees with that of the pricing spec.
   */
  lemma {:induction false} ResultFields(lib: Lib, it: AllocationPoint, resourceType: string, results: seq<ActualCostResult>)
    ensures ResultFor(lib, it).cost == it.cost
    ensures ResultFor(lib, it).usageAmount == 0.0 && ResultFor(lib, it).usageUnit == ""
    ensures ResultFor(lib, it).source == Name()
    ensures lib.parseRFC3339(it.start).Some? ==> ResultFor(lib, it).timestamp == lib.parseRFC3339(it.start).value
    ensures lib.parseRFC3339(it.start).None? ==> ResultFor(lib, it).timestamp == ZeroTime
    ensures GetPricingSpec(resourceType).currency == ProjectionOf(results).currency
  {
  }
}
