/**
 * The request URLs built by Location and Reviews: the endpoint, "location/",
 * the decimal location id, an optional "/reviews", then "?key=" and the key.
 */
module Urls {
  import opened Wrappers
  import opened Decimal
  import Config

  /** The URL Location requests. */
  function LocationURL(s: Config.Settings, locationID: int): (url: string)
    ensures |s.endpoint| + 5 + |s.key| <= |url|
    ensures url[..|s.endpoint|] == s.endpoint && url[|url| - |s.key|..] == s.key
    ensures url[|url| - |s.key| - 5..|url| - |s.key|] == "?key="
  {
    s.endpoint + "location/" + Itoa(locationID) + "?key=" + s.key
  }

  /** The URL Reviews requests. */
  function ReviewsURL(s: Config.Settings, locationID: int): (url: string)
    ensures |s.endpoint| + 13 + |s.key| <= |url|
    ensures url[..|s.endpoint|] == s.endpoint && url[|url| - |s.key|..] == s.key
    ensures url[|url| - |s.key| - 13..|url| - |s.key|] == "/reviews?key="
  {
    s.endpoint + "location/" + Itoa(locationID) + "/reviews?key=" + s.key
  }

  /** The two resources a URL can address. */
  datatype Resource = Details | Reviews

  /** What a request URL says, once the endpoint is known. */
  datatype Request = Request(resource: Resource, locationID: int, key: string)

  /** The index of the first c in s, or |s| when there is none. */
  function IndexOf(s: string, c: char): (k: nat)
    ensures k <= |s|
    ensures k < |s| ==> s[k] == c
    ensures forall j :: 0 <= j < k ==> s[j] != c
  {
    if s == [] then 0 else if s[0] == c then 0 else 1 + IndexOf(s[1..], c)
  }

  /** Reads a request URL under the given endpoint: after endpoint + "location/"
      comes a path up to the first '?', then "?key=" and the key (see ParseRest
      and ParsePath). */
  function ParseURL(endpoint: string, url: string): Option<Request> {
    var prefix := endpoint + "location/";
    if |prefix| <= |url| && url[..|prefix|] == prefix then ParseRest(url[|prefix|..]) else None
  }

  /** Splits what follows "location/" at the first '?', which must open "?key=". */
  function ParseRest(rest: string): Option<Request> {
    var q := IndexOf(rest, '?');
    var query := rest[q..];
    if |query| >= 5 && query[..5] == "?key=" then ParsePath(rest[..q], query[5..]) else None
  }

  /** A path ending in "/reviews" addresses the reviews; what remains of the
      path must be a decimal id written as strconv.Itoa writes it (no leading
      zero, no '+', no "-0"). */
  function ParsePath(path: string, key: string): Option<Request> {
    var isReviews := |path| >= 8 && path[|path| - 8..] == "/reviews";
    var idText := if isReviews then path[..|path| - 8] else path;
    if !IsCanonical(idText) then None
    else
      match ParseInt(idText)
      case None => None
      case Some(id) => Some(Request(if isReviews then Reviews else Details, id, key))
  }

  lemma ParseURLStripsPrefix(endpoint: string, rest: string)
    ensures ParseURL(endpoint, endpoint + "location/" + rest) == ParseRest(rest)
  {
  }

  lemma ParseRestSplitsAtQuery(path: string, key: string)
    requires forall j :: 0 <= j < |path| ==> path[j] != '?'
    ensures ParseRest(path + ("?key=" + key)) == ParsePath(path, key)
  {
    var rest := path + ("?key=" + key);
    IndexOfAfter(path, "?key=" + key);
    assert rest[..|path|] == path;
    assert rest[|path|..] == "?key=" + key;
  }

  /** The first '?' after a '?'-free prefix is the one that follows it. */
  lemma IndexOfAfter(a: string, b: string)
    requires forall j :: 0 <= j < |a| ==> a[j] != '?'
    requires |b| > 0 && b[0] == '?'
    ensures IndexOf(a + b, '?') == |a|
  {
    assert (a + b)[|a|] == '?';
  }

  lemma ItoaHasNoQuery(i: int)
    ensures forall j :: 0 <= j < |Itoa(i)| ==> Itoa(i)[j] != '?' && Itoa(i)[j] != '/'
  {
  }

  /** The path of each URL reads back as its resource and id. */
  lemma ParsePathOfId(locationID: int, key: string)
    ensures ParsePath(Itoa(locationID), key) == Some(Request(Details, locationID, key))
    ensures ParsePath(Itoa(locationID) + "/reviews", key) == Some(Request(Reviews, locationID, key))
  {
    var digits := Itoa(locationID);
    ItoaRoundTrip(locationID);
    if |digits| >= 8 {
      ItoaHasNoQuery(locationID);
      assert digits[|digits| - 8..][0] == digits[|digits| - 8];
    }
    var path := digits + "/reviews";
    assert path[|path| - 8..] == "/reviews";
    assert path[..|path| - 8] == digits;
  }

  /** The Location URL reads back as the details of the same id, with the same key. */
  lemma LocationURLRoundTrip(s: Config.Settings, locationID: int)
    ensures ParseURL(s.endpoint, LocationURL(s, locationID)) == Some(Request(Details, locationID, s.key))
  {
    var digits := Itoa(locationID);
    assert LocationURL(s, locationID) == s.endpoint + "location/" + (digits + ("?key=" + s.key));
    ParseURLStripsPrefix(s.endpoint, digits + ("?key=" + s.key));
    ItoaHasNoQuery(locationID);
    ParseRestSplitsAtQuery(digits, s.key);
    ParsePathOfId(locationID, s.key);
  }

  lemma ReviewsURLSplits(s: Config.Settings, locationID: int)
    ensures ReviewsURL(s, locationID) == s.endpoint + "location/" + ((Itoa(locationID) + "/reviews") + ("?key=" + s.key))
  {
  }

  lemma ReviewsPathHasNoQuery(locationID: int)
    ensures forall j :: 0 <= j < |Itoa(locationID) + "/reviews"| ==> (Itoa(locationID) + "/reviews")[j] != '?'
  {
    ItoaHasNoQuery(locationID);
  }

  /** The Reviews URL reads back as the reviews of the same id, with the same key. */
  lemma ReviewsURLRoundTrip(s: Config.Settings, locationID: int)
    ensures ParseURL(s.endpoint, ReviewsURL(s, locationID)) == Some(Request(Reviews, locationID, s.key))
  {
    var path := Itoa(locationID) + "/reviews";
    ReviewsURLSplits(s, locationID);
    ParseURLStripsPrefix(s.endpoint, path + ("?key=" + s.key));
    ReviewsPathHasNoQuery(locationID);
    ParseRestSplitsAtQuery(path, s.key);
    ParsePathOfId(locationID, s.key);
  }

  lemma ParsePathInverse(path: string, key: string, r: Request)
    requires ParsePath(path, key) == Some(r)
    ensures r.key == key
    ensures path == Itoa(r.locationID) + (if r.resource == Reviews then "/reviews" else "")
  {
    var isReviews := |path| >= 8 && path[|path| - 8..] == "/reviews";
    var idText := if isReviews then path[..|path| - 8] else path;
    ParseCanonical(idText, r.locationID);
    if isReviews {
      assert path == idText + "/reviews";
    }
  }

  lemma ParseRestInverse(rest: string, r: Request)
    requires ParseRest(rest) == Some(r)
    ensures rest == Itoa(r.locationID) + (if r.resource == Reviews then "/reviews" else "") + ("?key=" + r.key)
  {
    var q := IndexOf(rest, '?');
    var query := rest[q..];
    ParsePathInverse(rest[..q], query[5..], r);
    assert query == "?key=" + query[5..];
    assert rest == rest[..q] + query;
  }

  /** The reader accepts nothing but the URLs LocationURL and ReviewsURL build:
      a URL that reads as a request under an endpoint is the URL built for that
      request. With the round trips, each URL is fixed to the character,
      strconv.Itoa's numeral included. */
  lemma ParseURLAcceptsOnlyBuiltURLs(endpoint: string, url: string, r: Request)
    requires ParseURL(endpoint, url) == Some(r)
    ensures var st := Config.Settings(r.key, "", endpoint, 0);
            url == if r.resource == Details then LocationURL(st, r.locationID) else ReviewsURL(st, r.locationID)
  {
    var prefix := endpoint + "location/";
    var rest := url[|prefix|..];
    assert url == prefix + rest;
    ParseRestInverse(rest, r);
    var st := Config.Settings(r.key, "", endpoint, 0);
    if r.resource == Details {
      BuiltLocationURL(st, r.locationID, prefix, rest);
    } else {
      BuiltReviewsURL(st, r.locationID, prefix, rest);
    }
  }

  lemma BuiltLocationURL(st: Config.Settings, id: int, prefix: string, rest: string)
    requires prefix == st.endpoint + "location/"
    requires rest == Itoa(id) + "" + ("?key=" + st.key)
    ensures prefix + rest == LocationURL(st, id)
  {
  }

  lemma BuiltReviewsURL(st: Config.Settings, id: int, prefix: string, rest: string)
    requires prefix == st.endpoint + "location/"
    requires rest == Itoa(id) + "/reviews" + ("?key=" + st.key)
    ensures prefix + rest == ReviewsURL(st, id)
  {
    assert "/reviews?key=" == "/reviews" + "?key=";
  }

  /** Under one endpoint, a Location URL determines its id and key, and no
      Location URL is ever a Reviews URL. */
  lemma URLsDetermineRequest(s: Config.Settings, t: Config.Settings, i: int, j: int)
    requires s.endpoint == t.endpoint
    ensures LocationURL(s, i) == LocationURL(t, j) ==> i == j && s.key == t.key
    ensures ReviewsURL(s, i) == ReviewsURL(t, j) ==> i == j && s.key == t.key
    ensures LocationURL(s, i) != ReviewsURL(t, j)
  {
    LocationURLRoundTrip(s, i);
    LocationURLRoundTrip(t, j);
    ReviewsURLRoundTrip(s, i);
    ReviewsURLRoundTrip(t, j);
  }

  /** The Reviews URL is the Location URL with "/reviews" inserted just before "?key=". */
  lemma ReviewsURLInsertsSuffix(s: Config.Settings, locationID: int)
    ensures var loc := LocationURL(s, locationID);
            var k := |s.endpoint| + |"location/"| + |Itoa(locationID)|;
            k <= |loc| && ReviewsURL(s, locationID) == loc[..k] + "/reviews" + loc[k..]
  {
  }

  /** Only the endpoint, the id and the key reach the URLs: the language code
      and the timeout do not. */
  lemma URLsIgnoreLanguageAndTimeout(s: Config.Settings, t: Config.Settings, locationID: int)
    requires s.endpoint == t.endpoint && s.key == t.key
    ensures LocationURL(s, locationID) == LocationURL(t, locationID)
    ensures ReviewsURL(s, locationID) == ReviewsURL(t, locationID)
  {
  }

  /** Dropping a SetLanguageCode or SetTimeout option from the list given to
      New leaves both URLs unchanged. */
  lemma LanguageAndTimeoutOptionsNeverReachURL(a: seq<Config.Option>, o: Config.Option, b: seq<Config.Option>, locationID: int)
    requires o.SetLanguageCode? || o.SetTimeout?
    ensures LocationURL(Config.Configure(a + [o] + b), locationID) == LocationURL(Config.Configure(a + b), locationID)
    ensures ReviewsURL(Config.Configure(a + [o] + b), locationID) == ReviewsURL(Config.Configure(a + b), locationID)
  {
    Config.DropOptionKeepsOtherFields(Config.Defaults, a, o, b, Config.Key);
    Config.DropOptionKeepsOtherFields(Config.Defaults, a, o, b, Config.Endpoint);
  }
}
