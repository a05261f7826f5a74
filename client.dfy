/**
 * The root package (tripadvisor.go): a client configured by options, whose
 * Location and Reviews calls map every status outside 200-299 to an
 * ErrorResponse.
 */
module Client {
  import opened Wrappers
  import opened Decimal
  import opened Http
  import Config
  import Urls

  /** ErrorResponse.Error(): the envelope's fields and the status, in a fixed format. */
  function ErrorString(r: ErrorResponse): (e: string)
    ensures |e| >= 6 + |r.errorType.code| && e[..6 + |r.errorType.code|] == "code: " + r.errorType.code
  {
    "code: " + r.errorType.code + ", type: " + r.errorType.kind + ", message: " + r.errorType.message
      + ",  http status code: " + Itoa(r.statusCode)
  }

  /** The text after the last space of s (all of s when it has none). */
  function LastWord(s: string): (w: string)
    ensures |w| <= |s| && w == s[|s| - |w|..]
    ensures forall j :: 0 <= j < |w| ==> w[j] != ' '
    ensures |w| < |s| ==> s[|s| - |w| - 1] == ' '
  {
    if s == [] || s[|s| - 1] == ' ' then [] else LastWord(s[..|s| - 1]) + [s[|s| - 1]]
  }

  lemma LastWordAfterSpace(a: string, b: string)
    requires forall j :: 0 <= j < |b| ==> b[j] != ' '
    ensures LastWord(a + " " + b) == b
  {
    var s := a + " " + b;
    var w := LastWord(s);
    assert s[|s| - |b| - 1] == ' ';
    assert s[|s| - |b|..] == b;
  }

  lemma ErrorStringSuffix(r: ErrorResponse)
    ensures var e, tail := ErrorString(r), ",  http status code: " + Itoa(r.statusCode);
            |tail| <= |e| && e[|e| - |tail|..] == tail
  {
    var middle := "code: " + r.errorType.code + ", type: " + r.errorType.kind + ", message: " + r.errorType.message;
    var tail := ",  http status code: " + Itoa(r.statusCode);
    assert ErrorString(r) == middle + tail;
  }

  lemma ErrorStringLastWord(r: ErrorResponse)
    ensures LastWord(ErrorString(r)) == Itoa(r.statusCode)
  {
    var front := "code: " + r.errorType.code + ", type: " + r.errorType.kind + ", message: " + r.errorType.message
      + ",  http status code:";
    assert ErrorString(r) == front + " " + Itoa(r.statusCode);
    forall j | 0 <= j < |Itoa(r.statusCode)| ensures Itoa(r.statusCode)[j] != ' ' {
      ItoaCharacters(r.statusCode, j);
    }
    LastWordAfterSpace(front, Itoa(r.statusCode));
  }

  /** The error text starts with "code: " and the code, ends with ",  http
      status code: " (two spaces before "http") and the status in decimal, and
      its last word reads back as the status. */
  lemma ErrorStringShape(r: ErrorResponse)
    ensures var e := ErrorString(r); |e| >= 6 + |r.errorType.code| && e[..6 + |r.errorType.code|] == "code: " + r.errorType.code
    ensures var e, tail := ErrorString(r), ",  http status code: " + Itoa(r.statusCode);
            |tail| <= |e| && e[|e| - |tail|..] == tail
    ensures ParseInt(LastWord(ErrorString(r))) == Some(r.statusCode)
  {
    ErrorStringSuffix(r);
    ErrorStringLastWord(r);
    ItoaRoundTrip(r.statusCode);
  }

  /** callAPI: a status outside 200-299 yields an ErrorResponse carrying that
      status; otherwise the body is decoded into the result. */
  function CallAPI<T>(ex: Exchange<T>): (r: Result<T, Error>)
    ensures r.Failure? && r.error.ApiError? <==> ex.Completed? && !IsSuccessStatus(ex.status)
    ensures r.Failure? && r.error.ApiError? ==> r.error.response.statusCode == ex.status
    ensures r.Success? <==> ex.Completed? && IsSuccessStatus(ex.status) && ex.body.decoded.Success?
    ensures r.Success? ==> r.value == ex.body.decoded.value
    ensures ex.RequestRejected? ==> r == Failure(RequestError(ex.cause))
    ensures ex.TransportFailed? ==> r == Failure(TransportError(ex.cause))
    ensures ex.Completed? && IsSuccessStatus(ex.status) && ex.body.decoded.Failure? ==> r == Failure(DecodeError(ex.body.decoded.error))
  {
    match ex
    case RequestRejected(cause) => Failure(RequestError(cause))
    case TransportFailed(cause) => Failure(TransportError(cause))
    case Completed(c, body) =>
      if c < 200 || c > 299 then
        var fields := match body.envelope case Some(e) => e case None => EmptyErrorType;
        Failure(ApiError(ErrorResponse(fields, c)))
      else
        match body.decoded
        case Success(v) => Success(v)
        case Failure(cause) => Failure(DecodeError(cause))
  }

  /** The ErrorResponse for a status outside the success range carries the
      status whether or not the error body could be read: its fields are the
      ones json.Unmarshal managed to fill, and empty when nothing was read. */
  lemma ErrorResponseAlwaysCarriesStatus<T>(c: int, body: Body<T>)
    requires !IsSuccessStatus(c)
    ensures body.envelope.Some? ==> CallAPI(Completed(c, body)) == Failure(ApiError(ErrorResponse(body.envelope.value, c)))
    ensures body.envelope.None? ==> CallAPI(Completed(c, body)) == Failure(ApiError(ErrorResponse(EmptyErrorType, c)))
  {
  }

  /** The client: the four configured fields and the timeout of its HTTP client. */
  class TripAdvisor {
    var key: string
    var languageCode: string
    var endpoint: string
    var timeout: Config.Duration
    /** Timeout of the http.Client that New builds once the options have run. */
    var clientTimeout: Config.Duration

    function Settings(): Config.Settings
      reads this
    {
      Config.Settings(key, languageCode, endpoint, timeout)
    }

    /** New: start from the defaults, run the options in order, then build the
        HTTP client with the resulting timeout. */
    constructor New(opts: seq<Config.Option>)
      ensures Settings() == Config.Configure(opts)
      ensures clientTimeout == timeout
    {
      key, languageCode, endpoint, timeout := "", "en_UK", Config.DefaultEndpoint, 30 * Config.Second;
      clientTimeout := 0;
      new;
      var i := 0;
      while i < |opts|
        invariant 0 <= i <= |opts|
        invariant Settings() == Config.ApplyAll(Config.Defaults, opts[..i])
      {
        assert opts[..i + 1][..i] == opts[..i];
        Apply(opts[i]);
        i := i + 1;
      }
      assert opts[..|opts|] == opts;
      clientTimeout := timeout;
    }

    /** Runs one option on the client. Options can also be run after New; they
        then leave the HTTP client's timeout as it was. */
    method Apply(opt: Config.Option)
      modifies this
      ensures Settings() == Config.ApplyOption(old(Settings()), opt)
      ensures clientTimeout == old(clientTimeout)
    {
      match opt
      case SetKey(k) => key := k;
      case SetLanguageCode(c) => languageCode := c;
      case SetEndpoint(e) => endpoint := e;
      case SetTimeout(t) => timeout := t;
    }

    /** Location: GET the Location URL and classify the response with callAPI. */
    method Location(locationID: int, transport: Transport<LocationResponse>)
      returns (resp: Option<LocationResponse>, err: Option<Error>)
      ensures resp.Some? <==> err.None?
      ensures (resp, err) == GoReturn(CallAPI(transport(Urls.LocationURL(Settings(), locationID), clientTimeout)))
    {
      var url := endpoint + "location/" + Itoa(locationID) + "?key=" + key;
      var result := CallAPI(transport(url, clientTimeout));
      if result.Failure? {
        return None, Some(result.error);
      }
      return Some(result.value), None;
    }

    /** Reviews: GET the Reviews URL and classify the response with callAPI. */
    method Reviews(locationID: int, transport: Transport<ReviewResponse>)
      returns (resp: Option<ReviewResponse>, err: Option<Error>)
      ensures resp.Some? <==> err.None?
      ensures (resp, err) == GoReturn(CallAPI(transport(Urls.ReviewsURL(Settings(), locationID), clientTimeout)))
    {
      var url := endpoint + "location/" + Itoa(locationID) + "/reviews?key=" + key;
      var result := CallAPI(transport(url, clientTimeout));
      if result.Failure? {
        return None, Some(result.error);
      }
      return Some(result.value), None;
    }
  }
}
