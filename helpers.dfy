/**
 * The Sinatra helpers of the API: choosing the symbol filter from the request
 * parameters, filtering a quote's rates by it, and wrapping encoded JSON for JSONP.
 * These are the pure parts; the memoising, state-changing versions live in module Api.
 */
module Helpers {
  import opened Wrappers
  import opened RubyText

  /** Request parameters: query string, plus captures of the matched route. */
  type Params = map<string, string>

  const SymbolsKey := "symbols"
  const ToKey := "to"
  const CallbackKey := "callback"
  const DateKey := "date"

  /** An exchange rate; the API layer never inspects or changes one. */
  type Rate = real

  /** The attribute table of a quote: its base currency, its date and its rates. */
  datatype Attributes = Attributes(base: string, date: string, rates: map<string, Rate>)

  /** What `Quote.new(params)` builds: the date sent as Last-Modified and the attribute table. */
  datatype Quote = Quote(date: string, attributes: Attributes)

  // ---------------------------------------------------------------------------
  // The symbol filter (lib/api.rb:41-43): the first present value among `symbols` and `to`.

  /** `Hash#values_at`: the value at each key, nil where the key is absent. */
  function ValuesAt(params: Params, keys: seq<string>): (r: seq<Option<string>>)
    ensures |r| == |keys|
    ensures forall i | 0 <= i < |keys| :: r[i].Some? <==> keys[i] in params
    ensures forall i | 0 <= i < |keys| && keys[i] in params :: r[i].value == params[keys[i]]
  {
    seq(|keys|, i requires 0 <= i < |keys| => if keys[i] in params then Some(params[keys[i]]) else None)
  }

  /** The number of present entries. */
  function CountPresent<T>(xs: seq<Option<T>>): nat
  {
    if |xs| == 0 then 0 else (if xs[0].Some? then 1 else 0) + CountPresent(xs[1..])
  }

  /**
   * `Array#compact`: the present values, in order and each as often as it occurs.
   * The result has one entry per present entry of `xs`, and the present entry at
   * index `i` lands at the index that counts the present entries before it.
   */
  function Compact<T>(xs: seq<Option<T>>): (r: seq<T>)
    ensures |r| == CountPresent(xs) <= |xs|
    ensures forall i | 0 <= i < |xs| && xs[i].Some? ::
      CountPresent(xs[..i]) < |r| && r[CountPresent(xs[..i])] == xs[i].value
    ensures forall x | x in r :: Some(x) in xs
  {
    if |xs| == 0 then []
    else
      var rest := Compact(xs[1..]);
      assert forall i | 1 <= i < |xs| :: xs[i] == xs[1..][i - 1] && xs[..i][1..] == xs[1..][..i - 1];
      assert xs[..0] == [];
      match xs[0]
      case Some(x) => [x] + rest
      case None => rest
  }

  /** `Array#first`: nil for an empty array. */
  function First<T>(xs: seq<T>): (r: Option<T>)
    ensures r.Some? <==> |xs| > 0
    ensures r.Some? ==> r.value == xs[0]
  {
    if |xs| == 0 then None else Some(xs[0])
  }

  /**
   * The filter string of a request. `symbols` wins whenever it is present (even
   * when it is empty and `to` is present), `to` is used only when `symbols` is
   * absent, and there is no filter when both are absent.
   */
  function SelectSymbols(params: Params): (r: Option<string>)
    ensures SymbolsKey in params ==> r == Some(params[SymbolsKey])
    ensures SymbolsKey !in params && ToKey in params ==> r == Some(params[ToKey])
    ensures SymbolsKey !in params && ToKey !in params ==> r == None
  {
    var values := ValuesAt(params, [SymbolsKey, ToKey]);
    assert values[1..][1..] == [];
    First(Compact(values))
  }

  /** Parameters other than `symbols` and `to` have no say in the filter. */
  lemma SelectSymbolsIgnoresOthers(params: Params, key: string, value: string)
    requires key != SymbolsKey && key != ToKey
    ensures SelectSymbols(params - {key}) == SelectSymbols(params)
    ensures SelectSymbols(params[key := value]) == SelectSymbols(params)
  {
  }

  // ---------------------------------------------------------------------------
  // The attribute table (lib/api.rb:35-39): with a filter, `rates` is pruned in place
  // to the codes the filter string contains.

  /** The rates table that `keep_if` leaves when it keeps the keys the filter string includes (lib/api.rb:37). */
  function KeepIncluded(rates: map<string, Rate>, symbols: string): (r: map<string, Rate>)
    ensures r.Keys <= rates.Keys
    ensures forall k | k in rates :: k in r <==> Includes(symbols, k)
    ensures forall k | k in r :: r[k] == rates[k]
  {
    map k | k in rates && Includes(symbols, k) :: rates[k]
  }

  /**
   * The attribute table `quote_attributes` returns. Only `rates` changes: with no
   * filter it is the full table; with a filter `s` it keeps exactly the codes that
   * are substrings of `s`, each with its original rate.
   */
  function FilterAttributes(attributes: Attributes, symbols: Option<string>): (r: Attributes)
    ensures r.base == attributes.base && r.date == attributes.date
    ensures symbols.None? ==> r.rates == attributes.rates
    ensures r.rates.Keys <= attributes.rates.Keys
    ensures symbols.Some? ==> forall k | k in attributes.rates :: k in r.rates <==> IsInfix(k, symbols.value)
    ensures forall k | k in r.rates :: r.rates[k] == attributes.rates[k]
  {
    match symbols
    case None => attributes
    case Some(s) =>
      var kept := KeepIncluded(attributes.rates, s);
      assert forall k | k in attributes.rates :: k in kept <==> IsInfix(k, s) by {
        forall k | k in attributes.rates ensures k in kept <==> IsInfix(k, s) {
          IncludesIsInfix(s, k);
        }
      }
      attributes.(rates := kept)
  }

  /** Filtering an already filtered table with the same filter changes nothing. */
  lemma FilterIdempotent(attributes: Attributes, symbols: Option<string>)
    ensures FilterAttributes(FilterAttributes(attributes, symbols), symbols) == FilterAttributes(attributes, symbols)
  {
  }

  /**
   * For a well-formed request — `symbols` a comma-separated list of codes of one
   * width, and every rate keyed by such a code — the substring test is set
   * membership: the kept codes are the requested codes that the quote has.
   * Requested codes the quote does not have are simply absent, not an error.
   */
  lemma {:induction false} ListedCodesKept(attributes: Attributes, codes: seq<string>, width: nat)
    requires width > 0
    requires forall c | c in codes :: IsCode(c, width)
    requires forall k | k in attributes.rates :: IsCode(k, width)
    ensures FilterAttributes(attributes, Some(JoinCommas(codes))).rates.Keys == attributes.rates.Keys * set c | c in codes
  {
    var joined := JoinCommas(codes);
    var kept := FilterAttributes(attributes, Some(joined)).rates;
    forall k | k in attributes.rates
      ensures k in kept <==> k in codes
    {
      CodeInJoinedList(codes, k, width);
    }
  }

  /**
   * An empty `symbols` parameter is a filter that no code passes: `?symbols=&to=USD`
   * yields no rates at all, since `symbols` wins and `"".include?(k)` holds only for `k == ""`.
   */
  lemma EmptySymbolsKeepsNoCode(attributes: Attributes, params: Params)
    requires SymbolsKey in params && params[SymbolsKey] == ""
    requires "" !in attributes.rates
    ensures FilterAttributes(attributes, SelectSymbols(params)).rates == map[]
  {
  }

  /**
   * The substring test also accepts codes written without separators: a filter
   * `a + b` (say `USDGBP`) includes both `a` and `b`.
   */
  lemma UnseparatedCodesMatch(a: string, b: string)
    ensures Includes(a + b, a) && Includes(a + b, b)
  {
    assert (a + b)[0..|a|] == a;
    assert OccursAt(a, a + b, 0);
    assert (a + b)[|a|..|a| + |b|] == b;
    assert OccursAt(b, a + b, |a|);
    IncludesIsInfix(a + b, a);
    IncludesIsInfix(a + b, b);
  }

  // ---------------------------------------------------------------------------
  // JSONP wrapping (lib/api.rb:45-55): a `callback` parameter, removed from the
  // parameters, turns the JSON into a JavaScript call of that name.

  /** The two content types `jsonp` chooses between: JavaScript and JSON (lib/api.rb:49, 52). */
  datatype ContentType = Javascript | Json

  /** Deleting the `callback` parameter (lib/api.rb:47): the removed value, if any, and the parameters without it. */
  function TakeCallback(params: Params): (r: (Option<string>, Params))
    ensures r.0.Some? <==> CallbackKey in params
    ensures r.0.Some? ==> r.0.value == params[CallbackKey]
    ensures CallbackKey !in r.1
    ensures forall k | k != CallbackKey :: (k in r.1 <==> k in params) && (k in r.1 ==> r.1[k] == params[k])
  {
    (if CallbackKey in params then Some(params[CallbackKey]) else None, params - {CallbackKey})
  }

  /** What a JSONP client does with a body: strip `name(` and `)` to recover the JSON. */
  function UnwrapJsonp(name: string, body: string): Option<string>
  {
    var n := |name|;
    if n + 2 <= |body| && body[..n + 1] == name + "(" && body[|body| - 1] == ')'
    then Some(body[n + 1..|body| - 1])
    else None
  }

  /**
   * The content type and body `jsonp` produces for encoded JSON `json`. With a
   * callback (the empty name included, since any string is truthy in Ruby) the body
   * is JavaScript calling it: it opens with `name(`, closes with `)`, and a client
   * unwrapping it recovers `json` exactly. Without one it is the bare JSON.
   */
  function WrapJsonp(callback: Option<string>, json: string): (r: (ContentType, string))
    ensures r.0 == Javascript <==> callback.Some?
    ensures callback.None? ==> r.1 == json
    ensures callback.Some? ==>
      && |r.1| == |callback.value| + |json| + 2
      && r.1[..|callback.value| + 1] == callback.value + "("
      && r.1[|r.1| - 1] == ')'
      && UnwrapJsonp(callback.value, r.1) == Some(json)
  {
    match callback
    case None => (Json, json)
    case Some(name) =>
      var body := name + "(" + json + ")";
      assert body[..|name| + 1] == name + "(";
      assert body[|name| + 1..|body| - 1] == json;
      (Javascript, body)
  }
}
