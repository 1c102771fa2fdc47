# Kubecost cost-source adapter, modelled in Dafny

`pulumicost-plugin-kubecost` answers cost questions about Kubernetes resources by
querying a Kubecost backend. This project models the part that does real work:

- the **allocation client** (`internal/kubecost/allocation.go`):
  - builds the `/model/allocation` query from a window, a filter map and aggregation keys;
  - sends it with a bearer token, creating its HTTP client lazily;
  - classifies the answer: first the HTTP status, then the application `code`;
  - flattens the per-period maps of allocation entries into a list of cost points;
- the **window helpers**: `FormatTimeWindow`, `ParseDurationWindow` and the server's `windowFromTimes`;
- the **plain client** (`internal/kubecost/client.go`):
  - `NewClient` and `GetConfig`;
  - `Allocation`, which rejects any status of 300 or more;
  - `PredictSpecCost`: its parameters, content-type choice, body and the status-400 rule;
- the **cost-source server** (`internal/server/kubecost_server.go`):
  - the resource-ID switch that turns `kind/ns/name` into a filter;
  - one actual-cost result per allocation point;
  - the 30-day average projection;
  - `Name`, `Supports` and `GetPricingSpec`;
- the **configuration loader** (`internal/kubecost/config.go`): the environment defaults and the file-read branches.

How the model is built:

- Library behaviour is a record of functions, `GoLib.Lib`, passed as a parameter. It covers:
  - whether `url.Parse` succeeds;
  - `isJSON`;
  - RFC 3339 formatting and parsing;
  - `time.ParseDuration`;
  - `fmt.Sscanf("%d")`.
- The HTTP exchange is a function parameter, `RoundTrip<T>`. It maps the client settings and a request to one of:
  - a transport failure;
  - a status, a body and the result of JSON-decoding that body.
- Times and durations are integer nanoseconds, as Go's `time.Duration` is. `now` is a parameter.
- Costs are `real`.
- Go's map iteration order is unspecified. Loops over maps choose any remaining key (`:|`) and expose the order they took as a ghost `seq`. `KeyOrder.IsKeyOrder` says that such an order enumerates the map's keys exactly once, and the proved properties about the output hold for every such order.

Modules, in dependency order:

| module | file |
|---|---|
| `Wrappers` | `wrappers.dfy` |
| `Strings` | `strings.dfy` |
| `KeyOrder` | `keyorder.dfy` |
| `GoLib` | `golib.dfy` |
| `KubecostErrors` | `errors.dfy` |
| `KubecostConfig` | `config.dfy` |
| `Allocation` | `allocation.dfy` |
| `KubecostClient` | `client.dfy` |
| `Server` | `server.dfy` |

Behaviour of the code worth noting:

- `windowFromTimes` joins the two timestamps verbatim. It does not reformat them as canonical RFC 3339.
- `PredictSpecCost` sends `clusterID`, `defaultNamespace` and `window` exactly as given. Empty fields are not filled from configuration defaults.
- `Config` has five fields: base URL, token, default window, timeout and TLS skip. It has no cluster, namespace or prediction-window defaults.
- The filter terms are joined in map iteration order, not sorted. Only the final `url.Values.Encode` sorts parameter names, and that step is not modelled.
- `allocation.go:181` assigns `PVCost` on an `AllocationPoint`, but `client.go:47` declares that field as `PVCCost`. The model has a single persistent-volume field, `pvCost`, and copies the entry's `pvCost` into it.

## Model

| member | source | states |
|---|---|---|
| Strings.Split | internal/server/kubecost_server.go:54 | `strings.Split` on '/': at least one part, and no part contains the separator |
| Strings.SplitJoin | internal/server/kubecost_server.go:54 | splitting the '/'-join of separator-free segments gives those segments back |
| Strings.SplitAround | internal/server/kubecost_server.go:54 | splitting `a + sep + b` is splitting `a` followed by splitting `b` |
| Strings.JoinSplit | internal/server/kubecost_server.go:54 | Split's partner the other way round: joining the parts of any split with its separator gives back the string |
| Strings.SplitPair | internal/kubecost/allocation.go:203 | two separator-free strings around one separator split back into exactly that pair |
| Strings.Join | internal/kubecost/allocation.go:89 | the empty list joins to ""; a join starts with its first part and ends with its last |
| Strings.HasSuffix | internal/kubecost/allocation.go:211 | holds exactly when the string is some string followed by the suffix |
| Strings.TrimSuffix | internal/kubecost/allocation.go:211-212 | the trimmed string plus the suffix is the input when the suffix is present, otherwise the input is unchanged |
| KeyOrder.KeyOrderLength | internal/kubecost/allocation.go:86 | an iteration order of a map has exactly as many elements as the map has keys |
| KeyOrder.ImageOrderIndependent | internal/kubecost/allocation.go:86-88 | whatever order a map is visited in, the per-entry outputs are the same multiset |
| KubecostConfig.GetenvDefault | internal/kubecost/config.go:41-46 | a set, non-empty variable's value; the default when it is unset or empty |
| KubecostConfig.GetenvDuration | internal/kubecost/config.go:48-55 | the parsed duration when the variable is set, non-empty and parses; otherwise the default |
| KubecostConfig.EnvConfig | internal/kubecost/config.go:20-26 | base URL and token come from the environment as is (empty if unset); the default window and the timeout come from their variables through GetenvDefault and GetenvDuration with defaults "30d" and 15 s, so the window is never empty; TLS skip holds iff the variable is exactly "true" |
| KubecostConfig.LoadConfigFromEnvOrFile | internal/kubecost/config.go:19-39 | empty path gives the environment config and no error; a missing file does too; any other read error is returned with that config; a readable file is overlaid on it |
| KubecostConfig.EmptyEnvironmentDefaults | internal/kubecost/config.go:20-26 | with none of the five variables set the config is ("", "", "30d", 15 s, false) |
| KubecostConfig.MissingFileIsNoFile | internal/kubecost/config.go:27-33 | a non-existent file gives exactly the same outcome as no path |
| KubecostConfig.ErrorOnlyForUnreadableFile | internal/kubecost/config.go:27-38 | an error is returned iff a path is given and reading it fails other than by not existing |
| Allocation.AllocationUrl | internal/kubecost/allocation.go:78-102 | the allocation path; window verbatim; accumulate, idle and shareIdle always "false"; filter present iff the filter map is non-empty, its value the "+"-join of the terms; aggregate present iff keys are given, their ","-join; no other parameters |
| Allocation.FilterTermsOnePerEntry | internal/kubecost/allocation.go:84-90 | exactly one `k:"v"` term per filter entry, every entry's term present, in the order visited |
| Allocation.FilterTermsOrderIndependent | internal/kubecost/allocation.go:86-88 | any two iteration orders produce the same multiset of filter terms |
| Allocation.TwoEntryFilter | internal/kubecost/allocation.go:84-90 | a two-entry filter yields one of the two "+"-joined orders of its two terms |
| Allocation.AggregateRoundTrip | internal/kubecost/allocation.go:93-95 | aggregation keys free of commas split back from the aggregate value in their given order |
| Allocation.DetailedHeaders | internal/kubecost/allocation.go:118-121 | Authorization is "Bearer " + token iff the token is non-empty; Accept is always application/json; no other header |
| Allocation.CheckDetailed | internal/kubecost/allocation.go:135-155 | success iff the response arrived with status below 400, decoded, and has code 200; transport error, status error (with body), decode error and code error (with message) in that order |
| Allocation.HttpErrorBeforeDecoding | internal/kubecost/allocation.go:141-144 | at status 400 or more the decoded content is irrelevant and the outcome is a failure |
| Allocation.AppendPeriodPoints | internal/kubecost/allocation.go:163-184 | the inner loop appends one point per entry of the period, in the order it visited the period map, and that order enumerates every key once |
| Allocation.ConvertToSimpleResponse | internal/kubecost/allocation.go:159-188 | the output items are the points of every entry, period by period, in the key orders the loops took |
| Allocation.PointsForCount | internal/kubecost/allocation.go:162-185 | the number of items is the sum of the period map sizes |
| Allocation.PointsForSnoc | internal/kubecost/allocation.go:162-185 | periods are visited in sequence order: the points of one more period follow those of the periods before it |
| Allocation.PointsForOrigin | internal/kubecost/allocation.go:163-183 | every item is the point of some entry of some period: start/end preferring the entry's own, total cost copied |
| Allocation.PointsForComplete | internal/kubecost/allocation.go:162-184 | every entry of every period contributes its point |
| Allocation.PointsForOrderIndependent | internal/kubecost/allocation.go:163 | the items for any two map iteration orders are permutations of each other |
| Allocation.FormatTimeWindow | internal/kubecost/allocation.go:201-204 | the window of two instants, when their RFC 3339 texts are comma-free, splits back into exactly those two timestamps |
| Allocation.ParseDurationWindow | internal/kubecost/allocation.go:207-228 | no error iff an "Nd" token's number scans or another token parses as a duration; on error both times are zero; otherwise the window ends now and starts N days or the duration earlier |
| Allocation.DayTokenSpan | internal/kubecost/allocation.go:211-218 | "<n>d" with a readable n spans exactly n days ending now |
| KubecostClient.LazyTransport | internal/kubecost/allocation.go:124-133 | an existing HTTP client is kept; a missing one is built from the configured timeout and TLS choice |
| KubecostClient.CheckAllocation | internal/kubecost/client.go:81-93 | success iff the response arrived below status 300 and decoded; transport, status and decode errors otherwise |
| KubecostClient.CheckPrediction | internal/kubecost/client.go:146-163 | success iff the response arrived below status 400 and decoded, the three cost strings returned exactly as decoded |
| KubecostClient.RedirectStatusRules | internal/kubecost/client.go:13-14 | a 3xx status fails Allocation but passes the prediction and detailed-allocation checks |
| KubecostClient.AllocationStricterThanPrediction | internal/kubecost/client.go:86 | any response Allocation accepts, the prediction check accepts too |
| KubecostClient.AuthHeaders | internal/kubecost/client.go:77-80 | Allocation's only header is the bearer token, present iff the token is non-empty |
| KubecostClient.Client.NewClient | internal/kubecost/client.go:22-32 | the configuration is kept unchanged, GetConfig returns it, and an HTTP client is present |
| KubecostClient.Client.GetConfig | internal/kubecost/client.go:29-32 | returns the configuration the client holds |
| KubecostClient.NewClientIgnoresTransportConfig | internal/kubecost/client.go:22-27 | a client built by NewClient keeps its bare HTTP client, which differs from the one built from the configured timeout and TLS choice |
| KubecostClient.Client.NewConfiguredClient | internal/kubecost/allocation.go:123-133 | the configuration is kept and the HTTP client carries its timeout and TLS choice |
| KubecostClient.ConfiguredClientAppliesConfig | internal/kubecost/allocation.go:123-133 | a configured client's transport is the one the lazy branch would build, with the configured timeout and TLS choice |
| KubecostClient.Client.WithoutTransport | internal/kubecost/allocation.go:124 | a client with configuration but no HTTP client yet |
| KubecostClient.Client.BuildAllocationURL | internal/kubecost/allocation.go:73-104 | fails iff the base URL does not parse, with that error; otherwise the allocation URL for the order in which the loop visited the filter map |
| KubecostClient.Client.GetDetailedAllocation | internal/kubecost/allocation.go:107-156 | a base-URL error touches nothing; otherwise the HTTP client is created only if absent, never replaced, and the GET with the detailed headers is classified by CheckDetailed |
| KubecostClient.Client.EnhancedAllocation | internal/kubecost/allocation.go:191-198 | errors of GetDetailedAllocation unchanged; otherwise the converted items of the detailed data |
| KubecostClient.Client.Allocation | internal/kubecost/client.go:72-94 | URL errors propagate; otherwise the GET with AuthHeaders is classified by CheckAllocation |
| KubecostClient.Client.PredictSpecCost | internal/kubecost/client.go:98-164 | base-URL error sends nothing; otherwise one POST to /model/prediction/speccost with the spec as body, clusterID and defaultNamespace always, window iff non-empty, noUsage=true iff requested, JSON content type iff the spec is JSON, Accept JSON, bearer token iff configured; classified by CheckPrediction |
| Server.Name | internal/server/kubecost_server.go:40-42 | the plugin's name is "kubecost" |
| Server.Supports | internal/server/kubecost_server.go:44-48 | a resource type is supported iff it is "k8s-" followed by one of the four resource kinds |
| Server.WindowFromTimes | internal/server/kubecost_server.go:148-153 | the window is "30d" iff either time is empty; an explicit window of comma-free times splits back into the two times, verbatim |
| Server.ResourceFilter | internal/server/kubecost_server.go:53-76 | keys only among namespace/pod/controller/node; values never contain '/'; a non-empty filter's kind is a supported resource type |
| Server.GetPricingSpec | internal/server/kubecost_server.go:133-146 | echoes the resource type; provider kubernetes, per_day, USD, rate 0, empty sku and region, metadata source=kubecost |
| Server.ProjectionOf | internal/server/kubecost_server.go:114-130 | currency always USD; monthly cost is 30 times the daily price; billing detail empty iff there is no history, and then the price is zero; with a history the tag is "kubecost-avg-daily" and the daily price times the number of results is their total cost |
| Server.KubecostServer.NewKubecostServer | internal/server/kubecost_server.go:31-33 | the server keeps the client it is given |
| Server.KubecostServer.GetActualCost | internal/server/kubecost_server.go:50-100 | the client is asked with the window from the two times, the resource filter and no aggregation; its error is returned unchanged; otherwise one result per item, in order |
| Server.KubecostServer.GetProjectedCost | internal/server/kubecost_server.go:102-131 | actual cost over the thirty days before now with an empty resource ID; its error is returned unchanged; otherwise the projection of the results |
| Server.ResultsOf | internal/server/kubecost_server.go:86-98 | the loop appends exactly one result per point, in the points' order |
| Server.AverageDaily | internal/server/kubecost_server.go:114-130 | the running sum over the results, then the mean, give exactly the projection of the history |
| Server.ResourceIdShapes | internal/server/kubecost_server.go:56-75 | namespace/ns, pod/ns/p, controller/ns/c and node/n give their documented filters |
| Server.ShortResourceIds | internal/server/kubecost_server.go:58-73 | "pod/ns" and "controller/ns" of one segment after the kind, the bare "namespace" and "node" and the empty ID give no filter |
| Server.TooFewSegments | internal/server/kubecost_server.go:55-76 | any ID with fewer than two segments gives no filter, and so does any pod or controller ID with fewer than three |
| Server.BarePodAndController | internal/server/kubecost_server.go:61-70 | the bare "pod" and "controller" give no filter |
| Server.EmptySegmentIsAValue | internal/server/kubecost_server.go:58-64 | "namespace/" filters on an empty namespace, "pod//" on empty namespace and pod |
| Server.ResourceFilterIgnoresTail | internal/server/kubecost_server.go:56-75 | segments past the third never change the filter |
| Server.ResourceFilterIgnoresTailOfPair | internal/server/kubecost_server.go:56-75 | for namespace and node IDs, segments past the second never change the filter |
| Server.NamespaceTailExample | internal/server/kubecost_server.go:57-59 | "namespace/a/b" filters on namespace "a" alone |
| Server.SupportedKindsAreFilterKinds | internal/server/kubecost_server.go:44-48 | "k8s-" + kind is supported iff kind is one of the four kinds the resource-ID switch knows |
| Server.ProjectedWindow | internal/server/kubecost_server.go:104-110 | the projection's window equals FormatTimeWindow of the thirty days before now, and its filter is empty |
| Server.ResultFields | internal/server/kubecost_server.go:89-96 | each result keeps the item's cost, usage 0 and unit "", source equal to Name(), timestamp the parsed start or the zero time; projection and pricing spec agree on the currency |
| Server.ResultCostsAreEntryTotals | internal/server/kubecost_server.go:87-97 | every actual-cost result carries the total cost of some allocation entry |
| Server.ResultsPermutation | internal/server/kubecost_server.go:87-98 | reordering the items reorders the results as a permutation |
| Server.SumCostsAppend | internal/server/kubecost_server.go:118-121 | the running sum over concatenated results is the sum of the parts |
| Server.SumCostsPermutation | internal/server/kubecost_server.go:118-121 | the sum does not depend on the order of the results |
| Server.SumCostsBounds | internal/server/kubecost_server.go:118-121 | n results each between lo and hi sum to between n·lo and n·hi |
| Server.ProjectionMeanBounds | internal/server/kubecost_server.go:122-123 | the daily price lies between the cheapest and the dearest result |
| Server.ProjectionExample | internal/server/kubecost_server.go:118-130 | costs 100 and 200 project 150 a day and 4500 a month |
| Server.ProjectionOrderIndependent | internal/server/kubecost_server.go:102-131 | the projection is the same for every order in which the allocation maps are visited |

## Left out

- HTTP transport: `http.Client.Do`, TLS settings, reading and closing bodies, contexts and their cancellation. The model replaces them with the `RoundTrip` parameter.
- Request-creation errors: the model omits the "creating request" error of `http.NewRequestWithContext` in `GetDetailedAllocation` and `PredictSpecCost` (allocation.go:113-116, client.go:134-136). With a URL that has already parsed and a fixed method, these errors depend on library internals.
- JSON decoding and the body of `isJSON`: decoding is a field of the response, and `isJSON` is an abstract predicate.
- `url.Parse`, percent-escaping, `u.String()` and the key sorting of `url.Values.Encode`: a URL is a base, a path and a parameter map. For this reason no round trip is claimed for the filter value.
- The `time` package:
  - RFC 3339 formatting and parsing, `time.ParseDuration` and `Sscanf("%d")` are abstract functions;
  - `time.Now` is the `now` parameter;
  - `AddDate(0, 0, -d)` on a UTC time is modelled as subtracting `d` whole days;
  - the Go time range and its int64 overflow are not modelled.
- FormatTimeWindow: takes an instant, so it cannot express Go's `Format(time.RFC3339)` writing a non-UTC time's own zone offset (such as "+02:00" instead of "Z"); the callers in this core pass UTC times.
- Float rounding: costs are reals, so the running sum and the mean in `GetProjectedCost` are exact. `ProjectionOrderIndependent` rests on this: Go's float64 sum can differ in its last bits between map iteration orders.
- The YAML overlay: `os.ReadFile` is a parameter returning contents, not-exist or another error, and `yaml.Unmarshal` is a parameter that overlays the config. Its ignored error is dropped, as in the source.
- Allocation: when `Decode` fails, the Go code returns the partially decoded response along with the error (client.go:90-91). The model returns only the error.
- Allocation and PredictSpecCost: both require an HTTP client to be present. In Go a nil `*http.Client` would be dereferenced, and only `GetDetailedAllocation` creates one lazily.
- The `AllocationEntry` fields outside the costs and the window are not modelled: properties, minutes, core and byte hours, efficiencies and the raw allocation map. The entry's name, its load-balancer, shared and external costs and the response's status string are kept as decoded, but no operation reads them. The allocation properties (allocation.go:53-65) are left out for the same reason.
- `RegisterService` is a no-op. `cmd/pulumicost-kubecost/main.go` (startup, flags, listener, gRPC serving) and `pkg/version` are not part of this model.
- `GetProjectedCost` never reads its resource descriptor: it always queries with an empty resource ID. The model's method therefore takes no descriptor.

## Findings

| source | as written | input that shows it | evidently intended | confidence | as-written member | corrected member |
|---|---|---|---|---|---|---|
| internal/kubecost/client.go:22-27 | `NewClient` always sets `http: &http.Client{}`, so the branch at allocation.go:124-133 that applies `cfg.Timeout` and `cfg.TLSSkipVerify` never runs for its clients | any config, for example the default one with a 15 s timeout: the client's transport has no timeout and verifies TLS whatever `TLSSkipVerify` says | the client's HTTP client carries the configured timeout and TLS choice | medium, not executed | KubecostClient.NewClientIgnoresTransportConfig | KubecostClient.Client.NewConfiguredClient |
