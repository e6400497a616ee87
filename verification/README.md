# Request-level logic of the connected trace-propagation services

This project models, in Dafny, the decision logic that three of the Rust HTTP
services wrap around their network calls, with the network, JSON decoding and
the OpenTelemetry propagator abstracted away:

- **service-a** (`GET /route`): when APM is enabled it copies the inbound
  `traceparent` header into a carrier for the propagator, panicking when the
  header is missing or not visible ASCII; it defaults the `p` query value to
  "Unknown" and answers `Ok` with `key_one = "(<prefix>)Field 1"` and
  `key_two = "(<prefix>)Field 2"`.
- **service-b** (`GET /`), the aggregator: `get_service_a` requests
  `<host>/route?p=<prefix>` (prefix defaulting to "Unknown") and classifies the
  reply, turning a 504 into a "Timed out" placeholder model; `get_service_c`
  requests `<host>/time` and classifies the reply with no placeholder;
  `handler` calls A, then C, stops at the first error as Rust's `?` does, and
  builds the aggregate from A's two fields and C's time.
- **service-d** (`GET /weather`): the same APM-gated inbound read, the zip
  default "76262", the request to `<host>/current.json?q=<zip>&key=<key>`, the
  classification of the weather API's reply with no placeholder, and the
  `From` conversion of the API's nested reply into the flat response.

Modules: `Wrappers` (Option), `Http` (status codes, the abstract outcome of one
outbound call, `Result<_, StatusCode>`, header bytes and `HeaderValue::to_str`),
`Trace` (the APM-gated inbound read), `Downstream` (the shared classification
table and a reference taxonomy of call outcomes), `ServiceA`, `ServiceB`,
`ServiceD` and `WeatherModels`.

Abstractions:

- The network is a parameter `send: Url -> Outcome<T>`: for the URL requested
  it gives a transport error or a status with what the body decodes to
  (`Parsed(value)` or `Malformed`). An `Exchange` records the URLs requested,
  in order, with the result, so "C is never requested after A fails" is a
  statement about `requests`.
- The environment values (`SERVICE_A_URL`, `SERVICE_C_URL`, `WEATHER_API_URL`,
  `WEATHER_API_KEY`, the APM flag) are parameters.
- A panic is the `Panicked` reply; the propagator's `extract` is not modelled,
  and the carrier it would be handed is what the model exposes.
- `f64` temperatures are opaque 64-bit patterns and `DateTime<Utc>` an opaque
  instant; both are only passed through.
- Header maps are keyed by lower-case name and hold the first value of each.

The intended behaviour of a trace-propagating aggregator is that a rejected
call carries the upstream status, that every service extracts the inbound
trace context, and that an unreadable `traceparent` never aborts a request.
The code differs on each point, and the model follows the code:

- Every non-2xx rejection surfaces as exactly 400 (the upstream status is not
  carried), a malformed body is 400 and a transport error 500.
- service-b never reads an inbound `traceparent` at all.
- service-a and service-d `unwrap` the header read, so with APM on they panic
  when `traceparent` is missing or not visible ASCII (service-a/src/main.rs:100,
  service-d/src/main.rs:87). A visible but invalid value does not panic: it is
  handed to `extract`, which then finds no parent. `Trace.InboundCarrier` and
  both handlers state exactly when each case happens.

`Downstream.Categorize` has no row in the table below: it models no source
line but a reference taxonomy of call outcomes (success, fallback for a
dependency's timeout placeholder, unreachable, rejected with a status,
malformed body), applied as ordered rules with the first match winning.
`Downstream.ClassifyMatchesTaxonomy` proves the code's decision tree (success
test first, then 504) equals that taxonomy followed by the code's choice of
status. The weather URL
splices the zip in unencoded: `ServiceD.WeatherUrlAmbiguous` shows two
different (zip, key) pairs giving one URL, and `ServiceD.WeatherUrlInjective`
shows the URL determines both when the zip holds no '&'.

## Model

| member | source | states |
|---|---|---|
| Http.ToStr | service-a/src/main.rs:100 | the header text exists exactly when every byte is visible ASCII (0x20-0x7E or tab), and then has the same length and the same code at every position |
| Http.ToStrValueOf | service-a/src/main.rs:97-101 | a header written from visible text reads back as exactly that text |
| Http.ValueOfToStr | service-a/src/main.rs:100 | the text read from a visible header is exactly its bytes again |
| Trace.InboundCarrier | service-a/src/main.rs:96-107 | with APM off the handler proceeds with no carrier whatever the headers; with APM on it panics exactly when `traceparent` is missing or not visible ASCII, and otherwise hands `extract` a one-entry carrier holding the header's text |
| Trace.PropagatedTraceparentArrives | service-d/src/main.rs:83-94 | with APM on, a `traceparent` injected upstream as visible text reaches `extract` unchanged and does not panic |
| Downstream.Classify | service-b/src/main.rs:202-228 | 500 exactly for a transport error; `Ok` exactly for a 2xx with a decodable body (that body) or a 504 when the call has a placeholder (the placeholder); every other case 400 |
| Downstream.Surface | service-b/src/main.rs:219-227 | an unreachable dependency surfaces as exactly 500, a rejection or malformed body as exactly 400 |
| Downstream.ClassifyMatchesTaxonomy | service-b/src/main.rs:202-228 | for every outcome and placeholder, the code's decision tree equals the reference classification followed by surfacing |
| Downstream.NoFallbackWithoutPlaceholder | service-b/src/main.rs:147-167 | a call without a placeholder never falls back, and a 504 to it is 400 |
| ServiceA.Prefix | service-a/src/main.rs:108-115 | the prefix is the `p` value when present and "Unknown" when absent |
| ServiceA.Handler | service-a/src/main.rs:90-124 | panics exactly when APM is on and `traceparent` is unreadable; otherwise `Ok`, no outbound request, `extract` handed the carrier `{traceparent: <the header's text>}` exactly when APM is on, and the fields "(prefix)Field 1" and "(prefix)Field 2" |
| ServiceA.HeadersIgnoredWithoutApm | service-a/src/main.rs:96-107 | with APM off any two header maps give the same reply, and it is never a panic |
| ServiceA.KeysDiffer | service-a/src/main.rs:118-121 | `key_one` and `key_two` always differ |
| ServiceA.KeysInjective | service-a/src/main.rs:119-120 | distinct prefixes give distinct `key_one` values and distinct `key_two` values |
| ServiceA.NeverTimedOut | service-a/src/main.rs:118-121 | service-a never answers "Timed out" in either field, so the placeholder cannot be mistaken for a real reply |
| ServiceB.Prefix | service-b/src/main.rs:174-181 | the prefix sent to A is `name` when present and "Unknown" when absent |
| ServiceB.ServiceAUrlInjective | service-b/src/main.rs:183 | for one host, distinct prefixes give distinct URL strings as formatted (not necessarily distinct requests once the string is parsed as a URL) |
| ServiceB.GetServiceA | service-b/src/main.rs:171-229 | one request to `host + "/route?p=" + prefix`; transport error 500; 2xx gives the decoded model or 400; 504 gives the "Timed out" model; any other status 400 |
| ServiceB.GetServiceC | service-b/src/main.rs:126-168 | one request to `host + "/time"`; transport error 500; 2xx gives the decoded model or 400; every non-2xx including 504 gives 400 |
| ServiceB.Handler | service-b/src/main.rs:110-123 | A is requested first; an error from A is returned unchanged with C never requested; otherwise C is requested and its error returned unchanged; `Ok` exactly when both succeed, with `key_one`/`key_two` from A and `key_time` from C |
| ServiceB.TimeoutDegrades | service-b/src/main.rs:213-218 | a 504 from A with C succeeding gives an `Ok` aggregate carrying "Timed out" in both of A's fields |
| ServiceB.RejectionAborts | service-b/src/main.rs:219-222 | any other non-2xx from A gives 400 after the single request to A, whatever C would answer |
| ServiceB.UnreachableCFails | service-b/src/main.rs:163-166 | C unreachable after A succeeded gives 500 after both requests |
| ServiceB.TimeoutFromCFails | service-b/src/main.rs:158-161 | a 504 from C fails the aggregate with 400 |
| ServiceB.TimedOutMeansGatewayTimeout | service-b/src/main.rs:213-218 | when A itself never answers "Timed out" and C succeeds, the aggregate carries "Timed out" exactly when A answered 504 |
| WeatherModels.From | service-d/src/models.rs:48-57 | `city`, `state`, `celcius`, `farenheight` are `location.name`, `location.region`, `current.temp_c`, `current.temp_f`, unchanged |
| WeatherModels.FromIsBijective | service-d/src/models.rs:48-57 | the conversion has an inverse on both sides: nothing is lost or invented |
| WeatherModels.FromInjective | service-d/src/models.rs:50-55 | two API replies converting to the same response are equal |
| ServiceD.Zip | service-d/src/main.rs:95-102 | the zip is the query value when present and "76262" when absent |
| ServiceD.Handler | service-d/src/main.rs:77-159 | panics exactly when APM is on and `traceparent` is unreadable; otherwise `extract` handed the carrier `{traceparent: <the header's text>}` exactly when APM is on, and one request to `host + "/current.json?q=" + zip + "&key=" + key`; transport error 500; 2xx gives `From` of the decoded reply or 400; every non-2xx 400 |
| ServiceD.HeadersIgnoredWithoutApm | service-d/src/main.rs:83-94 | with APM off the headers do not affect the reply and it is never a panic |
| ServiceD.GatewayTimeoutIsRejected | service-d/src/main.rs:149-152 | a 504 from the weather API gives 400: there is no placeholder |
| ServiceD.WeatherUrlInjective | service-d/src/main.rs:111-114 | for zips without '&' the formatted URL string determines both the zip and the key (before it is parsed as a URL) |
| ServiceD.WeatherUrlAmbiguous | service-d/src/main.rs:111-114 | for every host, zip `z1 + "&key=" + z2` with key `k` gives the same URL as zip `z1` with key `z2 + "&key=" + k` |

## Left out

- The propagator's `extract` and `inject_context` (W3C Trace Context, section 3.2 "traceparent Header"): foreign code; the model exposes the carrier handed to `extract` and does not model outbound injection.
- Conversion of the injected carrier into `HeaderName`/`HeaderValue` with `unwrap` (service-b and service-d): a thin wrapper over the `http` types.
- `main` in every service: environment loading with `expect`, the exporter pipeline, subscriber setup and serving; the environment values are parameters.
- The `expect` on `SERVICE_A_URL`/`SERVICE_C_URL`/`WEATHER_API_*` inside the handlers: the values are parameters, so the missing-variable panic is not modelled.
- Sending with `reqwest` and decoding with `serde`: replaced by the `send` parameter and the `Body` datatype.
- URL parsing: the prefix and the zip are spliced into the URL string unencoded, and `reqwest` parses that string (percent-encoding spaces, cutting at '#') inside `send`; the model's URLs are the formatted strings, so distinct strings may still reach the dependency as the same request, a `name` holding "&p=" sends a second `p`, and a zip holding '#' drops the `key` parameter.
- Header maps with several values per name: only the first value, the one `HeaderMap::get` returns, is modelled.
- service-c: its reply is `Utc::now()`, a clock reading, and its APM-gated inbound read (service-c/src/main.rs:93-104) is the same gate `Trace.InboundCarrier` models for service-a and service-d.
- The `health` endpoints: constant replies.
- Floating-point temperatures: opaque bit patterns passed through, no arithmetic.
- Logging and tracing events, and async scheduling: the requests within one inbound request are sequential in the code and in the model.
