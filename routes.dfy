/**
 * The routes and error handlers of the API as a pure function from a request to the
 * response Sinatra sends: which route a path selects, and the status, headers and
 * body each route or handler produces. Module Api runs the same steps imperatively.
 */
module Routes {
  import opened Wrappers
  import opened RubyText
  import opened Helpers

  /**
   * The request methods the API distinguishes. `OtherVerb(name)` stands for every
   * method with a route in neither list; its `name` is never `GET` or `OPTIONS`.
   */
  datatype Verb = Get | Options | OtherVerb(name: string)

  /** A request: its method, its path and its query parameters. */
  datatype Env = Env(verb: Verb, path: string, query: Params)

  /** The values `encode_json` is applied to. */
  datatype Payload =
    | Metadata(details: string, version: string)
    | AttributesPayload(attributes: Attributes)
    | ErrorPayload(error: string)

  /**
   * The collaborators the API calls but does not define: `Quote.new` (which either
   * builds a quote or raises `Quote::Invalid` with a message), `Oj.dump` and `App.version`.
   */
  datatype Backend = Backend(newQuote: Params -> Result<Quote, string>, encodeJson: Payload -> string, version: string)

  /** A `Cache-Control` header value. */
  datatype CacheControl = CacheControl(isPublic: bool, mustRevalidate: bool, maxAge: nat)

  /** The cache policy set on every GET (lib/api.rb:67): public, must revalidate, at most 900 seconds old. */
  const GetCacheControl := CacheControl(true, true, 900)

  const ProviderUrl := "http://fixer.io"
  const NotFoundMessage := "Not found"

  const Ok200 := 200
  const NotFound404 := 404
  const Unprocessable422 := 422

  /** Status, the headers the API sets (None where it leaves a header unset) and body. */
  datatype Response = Response(
    status: nat,
    contentType: Option<ContentType>,
    cacheControl: Option<CacheControl>,
    etag: Option<string>,
    lastModified: Option<string>,
    body: string)

  // ---------------------------------------------------------------------------
  // The date route (lib/api.rb:81): a four-digit, two-digit, two-digit date pattern
  // with no anchors. As Sinatra 1.x matches a regular-expression route, it may
  // match anywhere in the path; the leftmost match is the captured `date`.

  predicate IsDigit(c: char)
  {
    '0' <= c <= '9'
  }

  /** The ten characters match `\d{4}-\d{2}-\d{2}`. */
  predicate IsDateShape(s: string)
  {
    && |s| == 10
    && IsDigit(s[0]) && IsDigit(s[1]) && IsDigit(s[2]) && IsDigit(s[3])
    && s[4] == '-'
    && IsDigit(s[5]) && IsDigit(s[6])
    && s[7] == '-'
    && IsDigit(s[8]) && IsDigit(s[9])
  }

  /** The date pattern matches `path` at index `i`. */
  predicate DateAt(path: string, i: nat)
  {
    i + 10 <= |path| && IsDateShape(path[i..i + 10])
  }

  /** The regular-expression search from index `from`: the leftmost index where the pattern matches. */
  function FindDateFrom(path: string, from: nat): (r: Option<nat>)
    decreases |path| - from
    ensures r.Some? ==> from <= r.value && DateAt(path, r.value)
    ensures forall j: nat | from <= j < (if r.Some? then r.value else |path|) :: !DateAt(path, j)
  {
    if from + 10 > |path| then None
    else if DateAt(path, from) then Some(from)
    else FindDateFrom(path, from + 1)
  }

  /** The routes of the API, in the order Sinatra tries them, and the miss. */
  datatype Route = Root | Latest | Dated(date: string) | Unmatched

  /** Whether the route builds a quote. */
  predicate IsQuoteRoute(route: Route)
  {
    route.Latest? || route.Dated?
  }

  /**
   * The route a GET path selects: `/` and `/latest` exactly; otherwise the date
   * route when a `YYYY-MM-DD` run occurs anywhere in the path, capturing the leftmost
   * one; otherwise none.
   */
  function Classify(path: string): (r: Route)
    ensures r.Root? <==> path == "/"
    ensures r.Latest? <==> path == "/latest"
    ensures r.Dated? ==> IsDateShape(r.date)
    ensures r.Dated? ==> exists i: nat :: DateAt(path, i) && path[i..i + 10] == r.date && forall j: nat | j < i :: !DateAt(path, j)
    ensures r.Unmatched? <==> path != "/" && path != "/latest" && forall j: nat :: !DateAt(path, j)
  {
    if path == "/" then Root
    else if path == "/latest" then Latest
    else match FindDateFrom(path, 0)
      case Some(i) => Dated(path[i..i + 10])
      case None => Unmatched
  }

  /** A path of a slash and a date selects the date route with that date captured. */
  lemma {:induction false} DatePathIsDated(date: string)
    requires IsDateShape(date)
    ensures Classify("/" + date) == Dated(date)
  {
    var path := "/" + date;
    assert !IsDigit(path[0]);
    assert !DateAt(path, 0);
    assert path[1..11] == date;
    assert FindDateFrom(path, 1) == Some(1);
  }

  /** The parameters a route's block sees: the query, plus the named capture of the date route. */
  function RouteParams(route: Route, query: Params): (r: Params)
    ensures route.Dated? ==> DateKey in r && r[DateKey] == route.date
    ensures forall k | k != DateKey :: (k in r <==> k in query) && (k in r ==> r[k] == query[k])
    ensures !route.Dated? ==> r == query
  {
    if route.Dated? then query[DateKey := route.date] else query
  }

  /** The `not_found` handler's body. */
  function NotFoundBody(backend: Backend): string
  {
    backend.encodeJson(ErrorPayload(NotFoundMessage))
  }

  /** The `error Quote::Invalid` handler's body for message `message`. */
  function InvalidBody(backend: Backend, message: string): string
  {
    backend.encodeJson(ErrorPayload(message))
  }

  /**
   * The response to a request. A total classification: OPTIONS is 200 with an
   * empty body; a GET carries the cache-control policy whatever its outcome;
   * `/` answers the metadata with the version as ETag; the quote routes answer
   * the filtered attributes with the quote's date as Last-Modified, or 422 with
   * the quote's error; everything else is 404 "Not found".
   */
  function Respond(env: Env, backend: Backend): (r: Response)
    ensures r.status in {Ok200, NotFound404, Unprocessable422}
    ensures r.status != Ok200 ==> r.contentType.None?
    ensures env.verb.Get? ==> r.cacheControl == Some(GetCacheControl)
    ensures !env.verb.Get? ==> r.cacheControl.None?
    ensures env.verb.Options? ==> r.status == Ok200 && r.body == "" && r.contentType.None?
    ensures r.status == NotFound404 <==> env.verb.OtherVerb? || (env.verb.Get? && Classify(env.path).Unmatched?)
    ensures r.status == NotFound404 ==> r.body == NotFoundBody(backend)
    ensures env.verb.Get? && Classify(env.path).Root? ==>
      && r.status == Ok200 && r.etag == Some(backend.version)
      && r.contentType == Some(if CallbackKey in env.query then Javascript else Json)
      && r.body == WrapJsonp(TakeCallback(env.query).0, backend.encodeJson(Metadata(ProviderUrl, backend.version))).1
    ensures r.etag.Some? ==> env.verb.Get? && Classify(env.path).Root?
    ensures r.status == Unprocessable422 <==>
      env.verb.Get? && IsQuoteRoute(Classify(env.path)) && backend.newQuote(RouteParams(Classify(env.path), env.query)).Err?
    ensures r.status == Unprocessable422 ==>
      r.body == InvalidBody(backend, backend.newQuote(RouteParams(Classify(env.path), env.query)).error)
    ensures env.verb.Get? && IsQuoteRoute(Classify(env.path)) ==>
      var quote := backend.newQuote(RouteParams(Classify(env.path), env.query));
      quote.Ok? ==>
        && r.status == Ok200
        && r.lastModified == Some(quote.value.date)
        && r.contentType == Some(if CallbackKey in env.query then Javascript else Json)
        && r.body == WrapJsonp(TakeCallback(env.query).0,
             backend.encodeJson(AttributesPayload(FilterAttributes(quote.value.attributes, SelectSymbols(env.query))))).1
    ensures r.lastModified.Some? ==> r.status == Ok200 && env.verb.Get? && IsQuoteRoute(Classify(env.path))
  {
    match env.verb
    case Options => Response(Ok200, None, None, None, None, "")
    case OtherVerb(_) => Response(NotFound404, None, None, None, None, NotFoundBody(backend))
    case Get =>
      var cache := Some(GetCacheControl);
      var route := Classify(env.path);
      match route
      case Root =>
        var (kind, body) := WrapJsonp(TakeCallback(env.query).0, backend.encodeJson(Metadata(ProviderUrl, backend.version)));
        Response(Ok200, Some(kind), cache, Some(backend.version), None, body)
      case Unmatched =>
        Response(NotFound404, None, cache, None, None, NotFoundBody(backend))
      case _ =>
        var params := RouteParams(route, env.query);
        match backend.newQuote(params)
        case Err(message) =>
          Response(Unprocessable422, None, cache, None, None, InvalidBody(backend, message))
        case Ok(quote) =>
          var attributes := FilterAttributes(quote.attributes, SelectSymbols(params));
          var (kind, body) := WrapJsonp(TakeCallback(params).0, backend.encodeJson(AttributesPayload(attributes)));
          Response(Ok200, Some(kind), cache, None, Some(quote.date), body)
  }
}
