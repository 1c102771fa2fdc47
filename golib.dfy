/**
 * Stand-ins for the Go standard library behaviour the adapter relies on but does not
 * define: URL parsing, JSON validity, RFC 3339 formatting and parsing, duration parsing,
 * `fmt.Sscanf("%d")`, and the HTTP round trip. Each is a value the caller supplies, so
 * every property of the model holds whatever those library functions do.
 */
module GoLib {
  import opened Wrappers

  /** A duration in nanoseconds, as Go's time.Duration. */
  type Duration = int
  /** A UTC instant in nanoseconds since the Unix epoch. */
  type Instant = int

  const Second: Duration := 1_000_000_000
  const Hour: Duration := 3600 * Second
  /** A calendar day in UTC; `AddDate(0, 0, n)` moves by exactly n of these. */
  const Day: Duration := 24 * Hour
  /** Go's zero time.Time: January 1, year 1, 00:00:00 UTC. */
  const ZeroTime: Instant := -62135596800 * Second

  datatype Lib = Lib(
    /** url.Parse(s) returns no error */
    urlParses: string -> bool,
    /** json.Unmarshal(s, &json.RawMessage{}) returns no error */
    isJSON: string -> bool,
    /** t.Format(time.RFC3339) */
    formatRFC3339: Instant -> string,
    /** time.Parse(time.RFC3339, s), None on error */
    parseRFC3339: string -> Option<Instant>,
    /** time.ParseDuration(s), None on error */
    parseDuration: string -> Option<Duration>,
    /** fmt.Sscanf(s, "%d", &n), None on error */
    scanInt: string -> Option<int>)

  /** A parsed base URL whose path and raw query have been replaced. */
  datatype Url = Url(base: string, path: string, query: map<string, string>)

  datatype Request = Request(verb: string, url: Url, headers: map<string, string>, body: string)

  /** The *http.Client a Client holds: the bare `&http.Client{}` or one built from the config. */
  datatype HttpSettings = DefaultClient | Tuned(timeout: Duration, tlsSkipVerify: bool)

  /** What `Do` and the JSON decoder yield: a transport error, or a status, the raw body
      and the body decoded into the expected type (None when decoding fails). */
  datatype HttpResult<T> =
    | TransportFailure(reason: string)
    | Received(status: int, body: string, decoded: Option<T>)

  /** The backend, as seen through one HTTP client. */
  type RoundTrip<T> = (HttpSettings, Request) -> HttpResult<T>
}
