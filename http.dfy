/**
 * What the library sees of an HTTP exchange, the errors it returns, and the
 * decoded response records. The transport itself (building the request,
 * sending it, reading and JSON-decoding the body) is not modelled: its outcome
 * is an input.
 */
module Http {
  import opened Wrappers
  import Config

  /** A decoded location record. Its JSON schema (models/location.go) is a passive
      container; three of its string fields stand for the whole record. */
  datatype LocationResponse = LocationResponse(name: string, numReviews: string, locationID: string)

  /** A decoded review record (models/review.go), abridged like LocationResponse. */
  datatype Review = Review(id: string, rating: int, text: string)

  /** A decoded reviews response: the reviews in the order the body lists them. */
  datatype ReviewResponse = ReviewResponse(data: seq<Review>)

  /** The "error" object of the provider's error body: code, type and message. */
  datatype ErrorType = ErrorType(code: string, kind: string, message: string)

  /** The envelope's fields when nothing could be read into them. */
  const EmptyErrorType := ErrorType("", "", "")

  /** ErrorResponse: the error envelope together with the status code of the
      response that caused it. */
  datatype ErrorResponse = ErrorResponse(errorType: ErrorType, statusCode: int)

  /** Every error a request can end in. */
  datatype Error =
    | RequestError(cause: string)    // http.NewRequest refused the URL
    | TransportError(cause: string)  // client.Do failed: DNS, connection, timeout
    | DecodeError(cause: string)     // the body did not decode as the expected record
    | ApiError(response: ErrorResponse)

  /** The body of a completed response, under the two readings the code may
      give it: decoded as the expected record (or the decoder's failure), and
      read best-effort into the error envelope: Some holds the fields
      json.Unmarshal managed to fill (a mistyped field stays empty while the
      others are filled), None stands for a body that could not be read or is
      not JSON at all. Which reading is used depends on the status. */
  datatype Body<T> = Body(decoded: Result<T, string>, envelope: Option<ErrorType>)

  /** How one GET ends, as seen by the library. */
  datatype Exchange<T> =
    | RequestRejected(cause: string)
    | TransportFailed(cause: string)
    | Completed(status: int, body: Body<T>)

  /** The network: what a GET of a URL by a client with the given timeout returns. */
  type Transport<T> = (string, Config.Duration) -> Exchange<T>

  /** The success range: 200 to 299 inclusive. */
  predicate IsSuccessStatus(c: int) {
    200 <= c <= 299
  }

  /** Go's (*Response, error) return: a pointer that is nil exactly when the
      error is not. */
  function GoReturn<T>(r: Result<T, Error>): (p: (Option<T>, Option<Error>))
    ensures p.0.Some? <==> p.1.None?
    ensures p.0.Some? ==> r == Success(p.0.value)
    ensures p.1.Some? ==> r == Failure(p.1.value)
  {
    match r
    case Success(v) => (Some(v), None)
    case Failure(e) => (None, Some(e))
  }
}
