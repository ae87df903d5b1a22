/**
 * The per-request Sinatra application instance: the memoised helpers `quote`,
 * `quote_attributes` and `symbols`, the `jsonp` helper that deletes `callback` from
 * `params`, the route blocks and error handlers writing the response, and the
 * dispatch that runs them in Sinatra's order. Dispatch is proved to produce
 * exactly the response of the reference function Routes.Respond.
 */
module Api {
  import opened Wrappers
  import opened Helpers
  import opened Routes

  class Request {
    const env: Env
    const backend: Backend

    /** `params`, which `jsonp` changes and the date route extends with its capture. */
    var params: Params
    /** `@quote`, set once `Quote.new` has succeeded. */
    var quoteMemo: Option<Quote>
    /** The parameters `@quote` was built from. */
    ghost var quoteParams: Params
    /** `@quote_attributes`. */
    var attributesMemo: Option<Attributes>
    /** `@symbols`. */
    var symbolsMemo: Option<string>

    // The response under construction.
    var status: nat
    var contentType: Option<ContentType>
    var cacheControl: Option<CacheControl>
    var etag: Option<string>
    var lastModified: Option<string>
    var body: string

    /** The response as it stands. */
    function Outcome(): Response
      reads this
    {
      Response(status, contentType, cacheControl, etag, lastModified, body)
    }

    /** Every memo holds what its helper would compute now. */
    ghost predicate Valid()
      reads this
    {
      && (symbolsMemo.Some? ==> symbolsMemo == SelectSymbols(params))
      && (quoteMemo.Some? ==> backend.newQuote(quoteParams) == Ok(quoteMemo.value))
      && (attributesMemo.Some? ==>
            quoteMemo.Some? && attributesMemo.value == FilterAttributes(quoteMemo.value.attributes, SelectSymbols(params)))
    }

    /** The state of a fresh instance: nothing memoised, Sinatra's default 200 with an empty body. */
    ghost predicate Pristine()
      reads this
    {
      && params == env.query
      && quoteMemo.None? && attributesMemo.None? && symbolsMemo.None?
      && Outcome() == Response(Ok200, None, None, None, None, "")
    }

    constructor (env: Env, backend: Backend)
      ensures this.env == env && this.backend == backend
      ensures Pristine() && Valid()
    {
      this.env := env;
      this.backend := backend;
      params := env.query;
      quoteMemo, attributesMemo, symbolsMemo := None, None, None;
      quoteParams := env.query;
      status, contentType, cacheControl, etag, lastModified, body := Ok200, None, None, None, None, "";
    }

    /**
     * The memoised quote (lib/api.rb:31-33): the stored quote if there is one, else a
     * quote built from the current parameters, stored only when building succeeds.
     * A raised `Quote::Invalid` is `Err`.
     */
    method GetQuote() returns (q: Result<Quote, string>)
      requires Valid()
      modifies this`quoteMemo, this`quoteParams
      ensures Valid()
      ensures old(quoteMemo).Some? ==> q == Ok(old(quoteMemo).value) && quoteMemo == old(quoteMemo)
      ensures old(quoteMemo).None? ==> q == backend.newQuote(params) && quoteMemo == (if q.Ok? then Some(q.value) else None)
    {
      if quoteMemo.Some? {
        return Ok(quoteMemo.value);
      }
      q := backend.newQuote(params);
      if q.Ok? {
        quoteMemo := Some(q.value);
        quoteParams := params;
      }
    }

    /** The memoised symbol filter (lib/api.rb:41-43): the filter selected from the current parameters. */
    method Symbols() returns (s: Option<string>)
      requires Valid()
      modifies this`symbolsMemo
      ensures Valid()
      ensures s == SelectSymbols(params) && symbolsMemo == s
    {
      if symbolsMemo.Some? {
        return symbolsMemo;
      }
      s := SelectSymbols(params);
      symbolsMemo := s;
    }

    /**
     * `quote_attributes`: the quote's attribute table with `rates` pruned in place by
     * `keep_if` when there is a filter, memoised; a failing `quote` propagates.
     */
    method QuoteAttributes() returns (a: Result<Attributes, string>)
      requires Valid()
      modifies this`quoteMemo, this`quoteParams, this`attributesMemo, this`symbolsMemo
      ensures Valid()
      ensures old(attributesMemo).Some? ==> a == Ok(old(attributesMemo).value)
      ensures old(quoteMemo).Some? ==> a.Ok?
      ensures a.Err? ==> old(quoteMemo).None? && backend.newQuote(params) == Err(a.error)
      ensures a.Ok? ==> quoteMemo.Some? && attributesMemo == Some(a.value)
      ensures a.Ok? ==> a.value == FilterAttributes(quoteMemo.value.attributes, SelectSymbols(params))
      ensures old(quoteMemo).Some? ==> quoteMemo == old(quoteMemo)
      ensures old(quoteMemo).None? ==> (quoteMemo.Some? <==> a.Ok?)
      ensures old(quoteMemo).None? && a.Ok? ==> backend.newQuote(params) == Ok(quoteMemo.value)
    {
      if attributesMemo.Some? {
        return Ok(attributesMemo.value);
      }
      var q := GetQuote();
      if q.Err? {
        return Err(q.error);
      }
      var data := q.value.attributes;
      var s := Symbols();
      if s.Some? {
        data := data.(rates := KeepIncluded(data.rates, s.value));
      }
      attributesMemo := Some(data);
      a := Ok(data);
    }

    /** JSON encoding (lib/api.rb:57-59), delegated to the encoder collaborator. */
    function EncodeJson(payload: Payload): string
    {
      backend.encodeJson(payload)
    }

    /**
     * `jsonp`: encode `payload`, delete `callback` from `params`, and answer either
     * `callback(json)` as JavaScript or the bare JSON as JSON.
     */
    method Jsonp(payload: Payload) returns (out: string)
      requires Valid()
      modifies this`params, this`contentType
      ensures Valid()
      ensures params == old(params) - {CallbackKey}
      ensures contentType.Some?
      ensures (contentType.value, out) == WrapJsonp(TakeCallback(old(params)).0, backend.encodeJson(payload))
    {
      var json := EncodeJson(payload);
      var callback := if CallbackKey in params then Some(params[CallbackKey]) else None;
      SelectSymbolsIgnoresOthers(params, CallbackKey, "");
      params := params - {CallbackKey};
      if callback.Some? {
        contentType := Some(Javascript);
        out := callback.value + "(" + json + ")";
      } else {
        contentType := Some(Json);
        out := json;
      }
    }

    /** The OPTIONS route for every path (lib/api.rb:62-64): status 200, nothing else. */
    method OptionsRoute()
      modifies this`status, this`body
      ensures status == Ok200 && body == ""
    {
      status, body := Ok200, "";
    }

    /** The catch-all GET filter (lib/api.rb:66-69): set the cache policy, then hand over to the next matching route. */
    method CacheEveryGet()
      modifies this`cacheControl
      ensures cacheControl == Some(GetCacheControl)
    {
      cacheControl := Some(GetCacheControl);
    }

    /** The root route (lib/api.rb:71-74): ETag the version, answer the provider and version. */
    method RootRoute()
      requires Valid()
      modifies this`etag, this`params, this`contentType, this`body
      ensures Valid()
      ensures etag == Some(backend.version)
      ensures params == old(params) - {CallbackKey}
      ensures contentType.Some?
      ensures (contentType.value, body) ==
        WrapJsonp(TakeCallback(old(params)).0, backend.encodeJson(Metadata(ProviderUrl, backend.version)))
    {
      etag := Some(backend.version);
      body := Jsonp(Metadata(ProviderUrl, backend.version));
    }

    /**
     * The latest and date routes (lib/api.rb:76-84): Last-Modified from the quote's date, then
     * the (filtered) attribute table. Returns the message of a raised `Quote::Invalid`,
     * which stops the block before it writes anything.
     */
    method QuoteRoute() returns (raised: Option<string>)
      requires Valid()
      modifies this`quoteMemo, this`quoteParams, this`attributesMemo, this`symbolsMemo
      modifies this`lastModified, this`params, this`contentType, this`body
      ensures Valid()
      ensures
        var quote := if old(quoteMemo).Some? then Ok(old(quoteMemo).value) else backend.newQuote(old(params));
        && (quote.Err? ==>
              raised == Some(quote.error)
              && lastModified == old(lastModified) && contentType == old(contentType) && body == old(body)
              && params == old(params) && quoteMemo == old(quoteMemo)
              && attributesMemo == old(attributesMemo) && symbolsMemo == old(symbolsMemo))
        && (quote.Ok? ==>
              raised.None? && lastModified == Some(quote.value.date) && contentType.Some?
              && params == old(params) - {CallbackKey}
              && quoteMemo == Some(quote.value)
              && attributesMemo == Some(FilterAttributes(quote.value.attributes, SelectSymbols(old(params))))
              && (contentType.value, body) ==
                 WrapJsonp(TakeCallback(old(params)).0,
                   backend.encodeJson(AttributesPayload(FilterAttributes(quote.value.attributes, SelectSymbols(old(params)))))))
    {
      var q := GetQuote();
      if q.Err? {
        return Some(q.error);
      }
      lastModified := Some(q.value.date);
      var a := QuoteAttributes();
      body := Jsonp(AttributesPayload(a.value));
      raised := None;
    }

    /** The not-found handler (lib/api.rb:86-88): stop with 404 and the encoded "Not found" error. */
    method NotFound()
      modifies this`status, this`body
      ensures status == NotFound404 && body == NotFoundBody(backend)
    {
      status, body := NotFound404, EncodeJson(ErrorPayload(NotFoundMessage));
    }

    /** The invalid-quote handler (lib/api.rb:90-92): stop with 422 and the encoded error message. */
    method Invalid(message: string)
      modifies this`status, this`body
      ensures status == Unprocessable422 && body == InvalidBody(backend, message)
    {
      status, body := Unprocessable422, EncodeJson(ErrorPayload(message));
    }

    /**
     * Serve the request: the OPTIONS route, or for a GET the cache filter followed
     * by the first matching route; an unmatched request goes to `not_found` and a
     * raised `Quote::Invalid` to its error handler.
     */
    method Dispatch()
      requires Pristine() && Valid()
      modifies this
      ensures Outcome() == Respond(env, backend)
    {
      match env.verb
      case Options =>
        OptionsRoute();
      case OtherVerb(_) =>
        NotFound();
      case Get =>
        CacheEveryGet();
        var route := Classify(env.path);
        match route
        case Root =>
          RootRoute();
        case Unmatched =>
          NotFound();
        case _ =>
          params := RouteParams(route, env.query);
          var raised := QuoteRoute();
          if raised.Some? {
            Invalid(raised.value);
          }
    }
  }
}
