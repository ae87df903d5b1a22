# fixer API layer in Dafny

A model of the response-shaping layer of the fixer foreign-exchange service:
the Sinatra helpers and routes of `lib/api.rb`. A request selects a symbol
filter from its parameters (`symbols`, else `to`), a quote's `rates` table is
pruned to the codes the filter string contains, the result is sent as JSON or
as a JSONP callback, and each route or error handler fixes the status and the
caching headers of the response.

The collaborators are inputs, bundled in `Routes.Backend`:
- `Quote.new(params)` is a function value from parameters to either a quote or
  the message of a raised `Quote::Invalid`;
- `Oj.dump` (`encode_json`) is a function value from the payload to an opaque
  JSON string;
- `App.version` is a string.

Files:
- `wrappers.dfy` (module `Wrappers`) holds `Option` (Ruby `nil` or a value) and
  `Result` (a value or a raised error).
- `ruby_text.dfy` (module `RubyText`) models `String#include?` as a
  left-to-right scan. It proves that scan equal to the substring relation, and
  that for comma-joined lists of fixed-width codes the substring test is list
  membership.
- `helpers.dfy` (module `Helpers`) holds the pure parts of the helpers:
  `values_at(...).compact.first`, the rate filter, `params.delete('callback')`
  and the JSONP wrapping.
- `routes.dfy` (module `Routes`) classifies a path into a route and defines
  `Respond`, the response to every request. `Respond` is a total
  classification into 200, 404 or 422.
- `api.dfy` (module `Api`) holds the class `Request`, one Sinatra instance
  per request. It has the memo fields `@quote`, `@quote_attributes` and
  `@symbols`, the mutable `params` and the response fields. Its methods run
  the helpers and route blocks in place. `Dispatch` runs them in Sinatra's
  order and is proved to produce exactly `Routes.Respond`.

Behaviour worth noting:
- A present but empty `symbols` still wins over `to`. The code takes the first
  non-nil value, not the first non-empty one. When no rate is keyed by the
  empty string, that empty filter keeps no rate at all
  (`Helpers.EmptySymbolsKeepsNoCode`).
- The filter is a substring test on the raw string, not set membership.
  `USDGBP` keeps both `USD` and `GBP` (`Helpers.UnseparatedCodesMatch`). For a
  comma-separated list of three-letter codes the two agree
  (`Helpers.ListedCodesKept`).
- The date route's regular expression has no anchors. The model assumes
  Sinatra 1.x, which matches a regular-expression route anywhere in the path.
  It captures the leftmost `YYYY-MM-DD` run. A plain `/YYYY-MM-DD` path is
  the expected case (`Routes.DatePathIsDated`). Sinatra 2 and later route
  through Mustermann, which anchors the expression at both ends. There the
  route would match no path that starts with `/`; that variant is not
  modelled.
- Cache-Control is set by `get '*'`, so only GET responses carry it. Those
  include the 404 and 422 responses of a GET. OPTIONS and other methods do not
  carry it.

## Model

| member | source | states |
|---|---|---|
| `RubyText.IncludesIsInfix` | lib/api.rb:37 | `symbols.include?(k)`, modelled as a left-to-right scan, holds exactly when `k` occurs as a contiguous substring of `symbols` |
| `RubyText.EmptyIncludesOnlyEmpty` | lib/api.rb:37 | the empty filter string includes only the empty key |
| `RubyText.CodeInJoinedList` | lib/api.rb:37 | for a comma-joined list of codes of one width, a code of that width is a substring of the list iff it is one of the listed codes |
| `Helpers.ValuesAt` | lib/api.rb:42 | `values_at` gives one entry per requested key: present exactly when the key is in `params`, and then that key's value |
| `Helpers.Compact` | lib/api.rb:42 | `compact` keeps exactly the present values in their order and multiplicity: one entry per present entry, the present entry at index `i` landing at the count of present entries before it |
| `Helpers.First` | lib/api.rb:42 | `first` is nil exactly for the empty array, else the first element |
| `Helpers.SelectSymbols` | lib/api.rb:41-43 | `symbols` is used whenever present (even empty, even with `to`); `to` only when `symbols` is absent; no filter when both are absent |
| `Helpers.SelectSymbolsIgnoresOthers` | lib/api.rb:42 | deleting or setting any other parameter (`callback`, the captured `date`) leaves the selected filter unchanged |
| `Helpers.KeepIncluded` | lib/api.rb:37 | `keep_if` leaves a subset of the keys: a key stays exactly when the filter string includes it, and its rate is unchanged |
| `Helpers.FilterAttributes` | lib/api.rb:35-39 | only `rates` changes; without a filter it is the full table; with filter `s` the kept codes are exactly the original codes that are substrings of `s`, each with its original rate |
| `Helpers.FilterIdempotent` | lib/api.rb:36-37 | filtering an already filtered table with the same filter gives the same table |
| `Helpers.ListedCodesKept` | lib/api.rb:37 | with a comma-separated list of codes and code-keyed rates, the kept codes are the requested codes intersected with the available ones; unknown codes are no error |
| `Helpers.EmptySymbolsKeepsNoCode` | lib/api.rb:37-42 | when no rate is keyed by the empty string, a present empty `symbols` yields an empty rates table |
| `Helpers.UnseparatedCodesMatch` | lib/api.rb:37 | for all strings `a` and `b`, the filter `a + b` includes both `a` and `b`, so unseparated codes such as `USDGBP` still match |
| `Helpers.TakeCallback` | lib/api.rb:47 | `params.delete('callback')` returns the callback iff present, and leaves every other parameter and no `callback` |
| `Helpers.WrapJsonp` | lib/api.rb:48-54 | with a callback (even empty) the type is JavaScript and the body is `name(` + JSON + `)`, from which unwrapping recovers the JSON exactly; without one the type is JSON and the body is the bare JSON |
| `Routes.FindDateFrom` | lib/api.rb:81 | the unanchored date pattern search returns the leftmost index from which `\d{4}-\d{2}-\d{2}` matches, or none when it matches nowhere |
| `Routes.Classify` | lib/api.rb:71-84 | `/` and `/latest` select their routes exactly; otherwise the date route with a date-shaped capture that is the leftmost match in the path; unmatched iff none of these |
| `Routes.DatePathIsDated` | lib/api.rb:81 | a path `/YYYY-MM-DD` selects the date route capturing exactly that date |
| `Routes.RouteParams` | lib/api.rb:81-83 | the date route adds its capture as `date` and leaves every other parameter as in the query; other routes see the query unchanged |
| `Routes.Respond` | lib/api.rb:62-92 | status is always 200, 404 or 422, and a 404 or 422 sets no content type of its own; every GET carries public, must-revalidate, max-age 900 and no other method does; OPTIONS is 200 with an empty body; 404 exactly for non-GET/OPTIONS methods and unmatched paths, with the `Not found` body; 422 exactly when a quote route's `Quote.new` fails, with its message as body; `/` sets the ETag to the version and answers the metadata; a successful quote route sets Last-Modified to the quote's date and answers the filtered attributes, as JSON or JSONP |
| `Api.Request.constructor` | lib/api.rb:31-43 | a fresh instance has nothing memoised, `params` equal to the query, and status 200 with an empty body |
| `Api.Request.GetQuote` | lib/api.rb:31-33 | `quote` returns the memoised quote if any, else `Quote.new(params)`, memoising it only on success |
| `Api.Request.Symbols` | lib/api.rb:41-43 | `symbols` returns the selected filter of the current `params` and memoises it |
| `Api.Request.QuoteAttributes` | lib/api.rb:35-39 | `quote_attributes` returns the memoised table if any; else the quote's table with `rates` filtered, now memoised; a failing quote propagates its error |
| `Api.Request.Jsonp` | lib/api.rb:45-55 | `jsonp` removes `callback` from `params`, sets the content type, and returns the wrapped or bare encoding of its argument |
| `Api.Request.OptionsRoute` | lib/api.rb:62-64 | OPTIONS answers 200 with an empty body |
| `Api.Request.CacheEveryGet` | lib/api.rb:66-69 | every GET gets the public, must-revalidate, max-age 900 policy |
| `Api.Request.RootRoute` | lib/api.rb:71-74 | `/` sets the ETag to the version and answers provider URL and version through `jsonp` |
| `Api.Request.QuoteRoute` | lib/api.rb:76-84 | a failing quote is reported as raised, and no response field, parameter or memo changes; otherwise Last-Modified is the quote's date, the body is the jsonp of the filtered attributes, `callback` is gone from `params`, and the quote and the filtered table are memoised |
| `Api.Request.NotFound` | lib/api.rb:86-88 | status 404 with body `Routes.NotFoundBody`: the JSON encoder (`encode_json`, lib/api.rb:57-59, modelled by `Api.Request.EncodeJson`) applied to `{error: "Not found"}` |
| `Api.Request.Invalid` | lib/api.rb:90-92 | status 422 with body `Routes.InvalidBody`: the JSON encoder (`encode_json`, lib/api.rb:57-59) applied to `{error: message}` |
| `Api.Request.Dispatch` | lib/api.rb:62-92 | running the routes and handlers in Sinatra's order on a fresh instance produces exactly `Routes.Respond` |

## Left out

- Rack::Cache with its memcached meta and entity stores (lib/api.rb:9-12) is left out. It is external caching middleware doing network I/O.
- The Rack::Cors policy (lib/api.rb:14-19) is left out. It is third-party middleware; CORS preflight answers come from it before the OPTIONS route runs.
- The `configure` blocks, `newrelic_rpm` and the error-dump settings (lib/api.rb:21-28) are left out. They are deployment and monitoring settings.
- lib/quote is not part of this model. `Quote.new`, `Quote#attributes`, `Quote#date` and the raising of `Quote::Invalid` are one opaque function value. Any other exception it raises (a 500) is not modelled.
- `Quote::Invalid` is raised only when the quote is built. In the source, `last_modified quote.date` runs before `quote_attributes` (lib/api.rb:77-78). An `Invalid` raised later, from `Quote#attributes`, would give a 422 that carries Last-Modified. `Routes.Respond` excludes that case with `r.lastModified.Some? ==> r.status == Ok200`.
- Parameter values are always strings (`Helpers.Params`), which leaves three Rack and Sinatra cases out:
  - A valueless `?symbols&to=USD` gives `symbols` the value nil, so `compact` drops it and `to` wins. The model treats such a key as absent from `params`.
  - `symbols[]=USD&symbols[]=GBP` arrives as an Array. `Array#include?` then tests exact membership, not substrings.
  - On the date route Sinatra also adds a `captures` entry (and, in 1.x, `splat`) to the parameters `Quote.new` receives. `Routes.RouteParams` adds only `date`.
- `Oj.dump` is not part of this model. Its output is an opaque string per payload.
- Sinatra's routing engine is reduced to `Routes.Classify`. Left out with it: HEAD requests, which Sinatra routes like GET; the `splat` parameter of `get '*'`; restoring `params` after a route; the `X-Cascade` header.
- Header rendering is left out. That covers ETag quoting, the HTTP-date form of Last-Modified, the MIME strings and charset behind `content_type :js` and `:json`, and Sinatra's default content type where the API sets none (shown as `None`).
- Conditional requests are left out. Sinatra's `etag` and `last_modified` helpers can stop a request with 304 when If-None-Match or If-Modified-Since match. Here those helpers only set the header.
- `Api.Request.QuoteAttributes`: the attribute table is a value copied out of the quote. If `Quote#attributes` hands out a shared hash, the in-place `keep_if` would also change the quote. The model cannot observe that aliasing.
- Rate keys are taken to be strings. `String#include?` with a Symbol key would raise; that is not modelled.
