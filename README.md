# TripAdvisor Go client — a Dafny model

This project models the logic of the TripAdvisor Content API client in Go
(root package `tripadvisor` and its twin `pkg/tripadvisor`):

- **Configuration by functional options.** `New` starts from fixed defaults
  (empty key, language code `en_UK`, endpoint
  `https://api.tripadvisor.com/api/partner/2.0/`, 30 seconds) and runs the
  caller's options in order; each of `SetKey`, `SetLanguageCode`,
  `SetEndpoint` and `SetTimeout` writes one field. The HTTP client is then built
  with the final timeout. Both packages are modelled as classes
  (`Client.TripAdvisor`, `PkgClient.TripAdvisor`) whose constructor runs the
  options in a loop. The options themselves are the datatype `Config.Option`
  and the method `Apply`. Their meaning is the pure fold `Config.ApplyAll`,
  which is shared by both packages because the Go code declares it twice,
  identically.
- **Request URLs.** Location requests `endpoint + "location/" + Itoa(id) +
  "?key=" + key`; Reviews inserts `/reviews` before `?key=`. The model contains
  `strconv.Itoa` (`Decimal.Itoa`) and a reader for URLs (`Urls.ParseURL`). Each
  URL reads back as its resource, id and key. The configured language code and
  timeout never reach a URL.
- **Response classification.** In the root package, `callAPI` decodes the body
  when the status is 200–299 and otherwise returns an `ErrorResponse`. That
  error carries the status even when the error body cannot be read.
  `ErrorResponse.Error()` has a fixed format. The `pkg/tripadvisor` variant
  never looks at the status: every completed response goes to the decoder.

The network is an input. A `Http.Transport` maps a URL and the client's
timeout to an `Http.Exchange`: the request was rejected, the transport failed,
or the exchange completed with a status and a body. The body is given under
both readings the code may use: decoded as the expected record (or the
decoder's failure), and read best-effort into the error envelope. Go's `(*T,
error)` return is the pair `(Option<T>, Option<Error>)`.

The language code is stored but never sent. The `context`
argument is never attached to the request, so there is no cancellation error.
The endpoint is not checked to end in `/`. Errors from `pkg/tripadvisor` never
include an API error, because it does not inspect the status: the model proves
that an error status with a decodable body is a success there
(`Packages.DisagreeOnErrorStatus`). In both packages an `Option` can still be
applied to a client after `New`. It then changes the stored timeout but not the
HTTP client's timeout; `Client.TripAdvisor.Apply` and
`PkgClient.TripAdvisor.Apply` say so.

Files: `wrappers.dfy` (Option, Result), `decimal.dfy`, `config.dfy`,
`urls.dfy`, `http.dfy`, `client.dfy` (tripadvisor.go), `pkg_client.dfy`
(pkg/tripadvisor/tripadvisor.go), `packages.dfy` (the two packages compared).

## Model

| member | source | states |
|---|---|---|
| Decimal.Itoa | tripadvisor.go:113 | `strconv.Itoa` writes a canonical numeral (optional `-`, digits, no leading zero, never `-0`), with `-` exactly for negative ids |
| Decimal.NatDigits | tripadvisor.go:113 | the digits of a natural number are non-empty, all decimal digits, and start with `0` only for zero |
| Decimal.ItoaRoundTrip | tripadvisor.go:113 | reading the decimal id segment back gives the original id, so the id segment parses back to locationID |
| Decimal.ParseCanonical | tripadvisor.go:113 | a numeral with no leading zero, no `+` and no `-0` is exactly what `strconv.Itoa` writes for the value it reads as |
| Decimal.ItoaInjective | tripadvisor.go:113 | distinct ids give distinct id segments |
| Config.ApplyOption | tripadvisor.go:76-108 | each Set* option writes its captured value into its own field and leaves the other three fields unchanged |
| Config.ApplyOptionDeterminedByContract | tripadvisor.go:76-108 | the two field-wise clauses of `ApplyOption`'s contract determine its result completely |
| Config.ApplyAll | tripadvisor.go:63-65 | the `for` loop over `opts`, as a fold that runs the options in list order; specified by `Config.LastWriterWins`, `Config.UnwrittenFieldKept` and `Config.ApplyAllAppend` |
| Config.Configure | tripadvisor.go:57-65 | the settings `New` holds after its loop: the fold started from the literal defaults; specified by `Config.NoOptionsGiveDefaults` and the fold lemmas |
| Config.NoOptionsGiveDefaults | tripadvisor.go:58-62 | with no options the settings are key `""`, language `en_UK`, the partner 2.0 endpoint and 30 seconds (30,000,000,000 ns) |
| Config.LastWriterWins | tripadvisor.go:63-65 | options run in list order: a field ends with the value of the last option that writes it, whatever earlier options wrote |
| Config.UnwrittenFieldKept | tripadvisor.go:63-65 | a field no option writes keeps its default |
| Config.ApplyAllAppend | tripadvisor.go:63-65 | running the options `a + b` is running `a`, then `b` from the state `a` left |
| Config.DropOptionKeepsOtherFields | tripadvisor.go:63-65 | removing one option from the list changes no field other than the one it writes |
| Config.OptionsOnDifferentFieldsCommute | tripadvisor.go:76-108 | two options on different fields give the same settings in either order |
| Config.LaterOptionOverrides | tripadvisor.go:76-108 | a later option on the same field overwrites an earlier one completely |
| Urls.LocationURL | tripadvisor.go:113 | starts with the endpoint and ends with `?key=` and the key; fully specified by `Urls.LocationURLRoundTrip` together with `Urls.ParseURLAcceptsOnlyBuiltURLs` (the URL is the one text the reader maps to that request, with the id written as `strconv.Itoa` writes it) |
| Urls.ReviewsURL | tripadvisor.go:123 | starts with the endpoint and ends with `/reviews?key=` and the key; fully specified by `Urls.ReviewsURLRoundTrip` together with `Urls.ParseURLAcceptsOnlyBuiltURLs`, and related to the Location URL by `Urls.ReviewsURLInsertsSuffix` |
| Urls.ParseURLAcceptsOnlyBuiltURLs | tripadvisor.go:113-123 | the URL reader accepts only the URLs the client builds: whatever reads as a request under an endpoint is exactly the Location or Reviews URL for that id and key, so no other spelling of the id (leading zero, `+`, `-0`) is accepted |
| Urls.LocationURLRoundTrip | tripadvisor.go:113 | the Location URL under its endpoint reads back as the location details of the same id with the same key |
| Urls.ReviewsURLRoundTrip | tripadvisor.go:123 | the Reviews URL under its endpoint reads back as the reviews of the same id with the same key |
| Urls.URLsDetermineRequest | tripadvisor.go:113-123 | under one endpoint each URL determines its id and key, and no Location URL equals any Reviews URL |
| Urls.ReviewsURLInsertsSuffix | tripadvisor.go:123 | the Reviews URL is the Location URL with `/reviews` inserted just before `?key=` |
| Urls.URLsIgnoreLanguageAndTimeout | tripadvisor.go:111-128 | both URLs depend only on endpoint, id and key: settings that differ only in language code or timeout give the same URLs |
| Urls.LanguageAndTimeoutOptionsNeverReachURL | tripadvisor.go:85-89 | dropping a SetLanguageCode or SetTimeout option from the list given to New leaves both URLs unchanged |
| Http.GoReturn | tripadvisor.go:114-117 | the returned response is non-nil exactly when the returned error is nil, and each carries the outcome's value |
| Client.ErrorString | tripadvisor.go:140-142 | starts with `code: ` and the code; the rest of its shape is specified by `Client.ErrorStringShape` |
| Client.ErrorStringShape | tripadvisor.go:140-142 | `Error()` starts with `code: ` and the code, ends with `,  http status code: ` (two spaces) and the decimal status, and its last word reads back as the status |
| Client.CallAPI | tripadvisor.go:144-172 | an `ErrorResponse` is returned iff the response completed with status < 200 or > 299, and it carries that status; a decoded value is returned iff the status is 200–299 and the body decodes, and it is the decoded body |
| Client.ErrorResponseAlwaysCarriesStatus | tripadvisor.go:156-163 | for a non-2xx status the error carries the status whether or not the body decodes: the fields `json.Unmarshal` managed to fill, empty fields when nothing could be read |
| Client.TripAdvisor.New | tripadvisor.go:57-70 | the client's settings are the defaults with the options run in order, and the HTTP client's timeout equals the final configured timeout |
| Client.TripAdvisor.Apply | tripadvisor.go:76-108 | running an option on a client changes its settings exactly as that option specifies, and leaves the HTTP client's timeout as it was |
| Client.TripAdvisor.Location | tripadvisor.go:111-118 | GETs the Location URL with the client's timeout; returns the `callAPI` outcome as a response or an error, exactly one of them non-nil |
| Client.TripAdvisor.Reviews | tripadvisor.go:121-128 | GETs the Reviews URL with the client's timeout; returns the `callAPI` outcome as a response or an error, exactly one of them non-nil |
| PkgClient.DecodeAnyStatus | pkg/tripadvisor/tripadvisor.go:98-114 | errors come only from request construction, transport or decoding, never from the status; the result is a success iff the response completed and its body decoded |
| PkgClient.StatusNeverInspected | pkg/tripadvisor/tripadvisor.go:101-114 | two completed responses with the same body give the same outcome whatever their status codes |
| PkgClient.TripAdvisor.New | pkg/tripadvisor/tripadvisor.go:42-55 | same defaults as the root package, options run in order with last writer wins, and the HTTP client's timeout comes from the final settings |
| PkgClient.TripAdvisor.Apply | pkg/tripadvisor/tripadvisor.go:61-93 | each option modifies exactly its own field |
| PkgClient.TripAdvisor.Location | pkg/tripadvisor/tripadvisor.go:96-115 | GETs endpoint + `location/` + Itoa(id) + `?key=` + key with the client's timeout and returns the status-blind outcome, response non-nil exactly when the error is nil and never an API error |
| Packages.AgreeUnlessErrorStatus | tripadvisor.go:156-171 | when the exchange did not complete, or completed with a 2xx status, both packages return the same outcome |
| Packages.DisagreeOnErrorStatus | pkg/tripadvisor/tripadvisor.go:107-114 | on a non-2xx status with a decodable body, the root package returns an `ErrorResponse` while pkg/tripadvisor returns the decoded record as success |

## Left out

- HTTP transport (`http.NewRequest`, `client.Do`, `Body.Close`, `ioutil.ReadAll`): network I/O; its outcome is the `Http.Exchange` input, so timeouts and connection errors appear only as a `TransportFailed` outcome.
- JSON decoding (`encoding/json`) and the response schemas of models/location.go and models/review.go: a foreign library over passive records. A body's decoded record, or the decoder's failure, is given with the exchange, and `LocationResponse`/`Review` keep only a few of their fields. An error body is given as the envelope fields `json.Unmarshal` managed to fill (a mistyped field leaves only that field empty), or as no envelope when it cannot be read or is not JSON at all.
- `context.Context`: it is accepted but never attached to the request, so it has no behaviour to model.
- The `LocationFunc`/`ReviewsFunc` adapters and the `TripAdvisorAPI`/`Location` interfaces: plain delegation with nothing to verify.
- `ErrorResponse.Response` (`*http.Response`): only its status code, which is all that `Error()` reads, is kept.
- Go's `int` (32 or 64 bits by platform) for location ids and status codes: modelled as unbounded integers. The code does no arithmetic on them and `Itoa` is proved for every integer, so the width does not affect any property here. `time.Duration` is kept as a signed 64-bit nanosecond count.
- Only the four `Set*` options are modelled: Go's `Option` is an open function type, so a caller may also pass its own closure; such a closure stands here for the `Set*` options it runs. A nil option makes `New` panic at `opt(&t)`, which the model does not represent.
- `Error()` assumes `Response` is not nil (it panics otherwise); every `ErrorResponse` the client builds has one, and the model carries only its status code.
- Client.ErrorStringShape: states the leading code, the fixed `,  http status code: ` suffix with the decimal status, and that the status reads back; the type and message between them are fixed only by the definition of `Client.ErrorString`.
- models/location.go, models/review.go, cmd/main.go and the tests: data containers, a demo entry point, and tests that need a live API key.
