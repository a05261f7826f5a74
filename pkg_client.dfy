/**
 * The pkg/tripadvisor package: the same options and defaults as the root
 * package, and a Location call that never looks at the status code.
 */
module PkgClient {
  import opened Wrappers
  import opened Decimal
  import opened Http
  import Config
  import Urls

  /** The result path of Location: errors come only from building the request,
      the transport or the decoder, and any completed response is decoded,
      whatever its status. */
  function DecodeAnyStatus<T>(ex: Exchange<T>): (r: Result<T, Error>)
    ensures r.Failure? ==> !r.error.ApiError?
    ensures r.Success? <==> ex.Completed? && ex.body.decoded.Success?
    ensures r.Success? ==> r.value == ex.body.decoded.value
    ensures ex.RequestRejected? ==> r == Failure(RequestError(ex.cause))
    ensures ex.TransportFailed? ==> r == Failure(TransportError(ex.cause))
    ensures ex.Completed? && ex.body.decoded.Failure? ==> r == Failure(DecodeError(ex.body.decoded.error))
  {
    match ex
    case RequestRejected(cause) => Failure(RequestError(cause))
    case TransportFailed(cause) => Failure(TransportError(cause))
    case Completed(_, body) =>
      match body.decoded
      case Success(v) => Success(v)
      case Failure(cause) => Failure(DecodeError(cause))
  }

  /** The status code never changes the outcome. */
  lemma StatusNeverInspected<T>(c1: int, c2: int, body: Body<T>)
    ensures DecodeAnyStatus(Completed(c1, body)) == DecodeAnyStatus(Completed(c2, body))
  {
  }

  /** The pkg/tripadvisor client: the same four fields and HTTP client timeout. */
  class TripAdvisor {
    var key: string
    var languageCode: string
    var endpoint: string
    var timeout: Config.Duration
    /** Timeout of the http.Client that New builds once the options have run. */
    var clientTimeout: Config.Duration

    function Settings(): Config.Settings
      reads this
    {
      Config.Settings(key, languageCode, endpoint, timeout)
    }

    /** New: start from the defaults, run the options in order, then build the
        HTTP client with the resulting timeout. */
    constructor New(opts: seq<Config.Option>)
      ensures Settings() == Config.Configure(opts)
      ensures clientTimeout == timeout
    {
      key, languageCode, endpoint, timeout := "", "en_UK", Config.DefaultEndpoint, 30 * Config.Second;
      clientTimeout := 0;
      new;
      var i := 0;
      while i < |opts|
        invariant 0 <= i <= |opts|
        invariant Settings() == Config.ApplyAll(Config.Defaults, opts[..i])
      {
        assert opts[..i + 1][..i] == opts[..i];
        Apply(opts[i]);
        i := i + 1;
      }
      assert opts[..|opts|] == opts;
      clientTimeout := timeout;
    }

    /** Runs one option on the client: it writes its own field only. */
    method Apply(opt: Config.Option)
      modifies this
      ensures Settings() == Config.ApplyOption(old(Settings()), opt)
      ensures clientTimeout == old(clientTimeout)
    {
      match opt
      case SetKey(k) => key := k;
      case SetLanguageCode(c) => languageCode := c;
      case SetEndpoint(e) => endpoint := e;
      case SetTimeout(t) => timeout := t;
    }

    /** Location: GET the Location URL and decode whatever comes back. */
    method Location(locationID: int, transport: Transport<LocationResponse>)
      returns (resp: Option<LocationResponse>, err: Option<Error>)
      ensures resp.Some? <==> err.None?
      ensures err.Some? ==> !err.value.ApiError?
      ensures (resp, err) == GoReturn(DecodeAnyStatus(transport(Urls.LocationURL(Settings(), locationID), clientTimeout)))
    {
      var ex := transport(endpoint + "location/" + Itoa(locationID) + "?key=" + key, clientTimeout);
      match ex {
        case RequestRejected(cause) =>
          return None, Some(RequestError(cause));
        case TransportFailed(cause) =>
          return None, Some(TransportError(cause));
        case Completed(_, body) =>
          if body.decoded.Failure? {
            return None, Some(DecodeError(body.decoded.error));
          }
          return Some(body.decoded.value), None;
      }
    }
  }
}
