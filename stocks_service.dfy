/**
 * `retrieve_time_series` of `stock_analyzer.services.stocks_service`: the interval
 * table, the request URL, the status check, and the retry decorator around all of it.
 *
 * The HTTP server is a function from the number of a request (0 for the first one
 * issued) to the response it gets, or to the exception `requests.get` raises when
 * none arrives; sleeping is recorded as the list of waits.
 */
module StocksService {
  import opened Wrappers
  import opened Config
  import Json

  // ---------------------------------------------------------------------------
  // Interval table
  // ---------------------------------------------------------------------------

  const IntervalToFunction: map<string, string> := map[
    "intraday" := "TIME_SERIES_INTRADAY",
    "daily" := "TIME_SERIES_DAILY",
    "weekly" := "TIME_SERIES_WEEKLY",
    "monthly" := "TIME_SERIES_MONTHLY"]

  const IntradayQualifier: string := "&interval=5min"

  /** `str.upper` restricted to ASCII letters. */
  function Upper(s: string): (u: string)
    ensures |u| == |s|
    ensures forall i :: 0 <= i < |s| ==> u[i] == if 'a' <= s[i] <= 'z' then (s[i] as int - 32) as char else s[i]
  {
    seq(|s|, i requires 0 <= i < |s| => if 'a' <= s[i] <= 'z' then (s[i] as int - 32) as char else s[i])
  }

  /** `interval_to_function.get(interval)`: the four intervals, and no other, map to
      the provider's function code, which is "TIME_SERIES_" and the interval in
      upper case. */
  function FunctionFor(interval: string): (f: Option<string>)
    ensures f.Some? <==> interval in {"intraday", "daily", "weekly", "monthly"}
    ensures f.Some? ==> f.value == "TIME_SERIES_" + Upper(interval)
  {
    assert Upper("intraday") == "INTRADAY";
    assert Upper("daily") == "DAILY";
    assert Upper("weekly") == "WEEKLY";
    assert Upper("monthly") == "MONTHLY";
    if interval in IntervalToFunction then Some(IntervalToFunction[interval]) else None
  }

  // ---------------------------------------------------------------------------
  // Request URL
  // ---------------------------------------------------------------------------

  /** The f-string of line 28 followed by the intraday `url +=`. The symbol and the
      key are inserted as they are, without percent-encoding: the URL starts with the
      base and the function, and ends with the key, or with `&interval=5min` after
      the key for the intraday interval. */
  function RequestUrl(baseUrl: string, functionCode: string, symbol: string, apiKey: string, interval: string): (url: string)
    ensures baseUrl + "?function=" + functionCode <= url
    ensures interval != "intraday" ==> |apiKey| <= |url| && url[|url| - |apiKey|..] == apiKey
    ensures interval == "intraday" ==>
      |IntradayQualifier| <= |url| && url[|url| - |IntradayQualifier|..] == IntradayQualifier
  {
    var url := baseUrl + "?function=" + functionCode + "&symbol=" + symbol + "&apikey=" + apiKey;
    if interval == "intraday" then url + IntradayQualifier else url
  }

  /** The position of the first `c` in `s`, or `|s|` when there is none. */
  function FirstIndex(s: string, c: char): (i: nat)
    ensures i <= |s|
    ensures i < |s| ==> s[i] == c
    ensures forall j :: 0 <= j < i ==> s[j] != c
  {
    if s == [] then 0 else if s[0] == c then 0 else 1 + FirstIndex(s[1..], c)
  }

  /** The pieces of `s` between occurrences of `sep`, as Python's `s.split(sep)`. */
  function Split(s: string, sep: char): (parts: seq<string>)
    ensures |parts| >= 1
    decreases |s|
  {
    var i := FirstIndex(s, sep);
    if i == |s| then [s] else [s[..i]] + Split(s[i + 1..], sep)
  }

  /** A query parameter `key=value`, split at its first `=`. */
  function Param(p: string): (string, string) {
    var i := FirstIndex(p, '=');
    if i == |p| then (p, "") else (p[..i], p[i + 1..])
  }

  function Params(parts: seq<string>): (ps: seq<(string, string)>)
    ensures |ps| == |parts|
    ensures forall i :: 0 <= i < |parts| ==> ps[i] == Param(parts[i])
  {
    if parts == [] then [] else [Param(parts[0])] + Params(parts[1..])
  }

  /** How the server reads a URL (section 3 of RFC 3986): the fragment, from the
      first `#`, is dropped; the query is what follows the first `?`; its parameters
      are separated by `&`. Percent-decoding is not part of this reading. */
  function QueryParams(url: string): seq<(string, string)> {
    var target := url[..FirstIndex(url, '#')];
    var q := FirstIndex(target, '?');
    if q == |target| then [] else Params(Split(target[q + 1..], '&'))
  }

  /** The unreserved characters of section 2.3 of RFC 3986: letters, digits and
      `-._~`. Neither the HTTP client's re-quoting of a URL nor the server's
      percent-decoding changes them. */
  predicate Unreserved(c: char) {
    'A' <= c <= 'Z' || 'a' <= c <= 'z' || '0' <= c <= '9' || c == '-' || c == '.' || c == '_' || c == '~'
  }

  predicate AllUnreserved(s: string) {
    forall i :: 0 <= i < |s| ==> Unreserved(s[i])
  }

  lemma {:induction false} FirstIndexAfter(a: string, c: char, b: string)
    requires c !in a
    ensures FirstIndex(a + [c] + b, c) == |a|
  {
    if a != [] {
      assert (a + [c] + b)[1..] == a[1..] + [c] + b;
      FirstIndexAfter(a[1..], c, b);
    }
  }

  lemma {:induction false} FirstIndexAbsent(a: string, c: char)
    requires c !in a
    ensures FirstIndex(a, c) == |a|
  {
    if a != [] {
      FirstIndexAbsent(a[1..], c);
    }
  }

  /** The pieces joined with `sep`, as Python's `sep.join(pieces)`. */
  function Join(pieces: seq<string>, sep: char): string
    requires |pieces| >= 1
  {
    if |pieces| == 1 then pieces[0] else pieces[0] + [sep] + Join(pieces[1..], sep)
  }

  /** Splitting undoes joining when no piece holds the separator. */
  lemma {:induction false} SplitJoin(pieces: seq<string>, sep: char)
    requires |pieces| >= 1
    requires forall i :: 0 <= i < |pieces| ==> sep !in pieces[i]
    ensures Split(Join(pieces, sep), sep) == pieces
  {
    if |pieces| == 1 {
      FirstIndexAbsent(pieces[0], sep);
    } else {
      var a, rest := pieces[0], pieces[1..];
      var b := Join(rest, sep);
      assert forall i :: 0 <= i < |rest| ==> rest[i] == pieces[i + 1];
      SplitJoin(rest, sep);
      SplitCons(a, sep, b);
      assert Join(pieces, sep) == a + [sep] + b;
      assert pieces == [a] + rest;
    }
  }

  /** Splitting `a + sep + b` where `a` holds no separator. */
  lemma SplitCons(a: string, sep: char, b: string)
    requires sep !in a
    ensures Split(a + [sep] + b, sep) == [a] + Split(b, sep)
  {
    var s := a + [sep] + b;
    FirstIndexAfter(a, sep, b);
    assert s[..|a|] == a;
    assert s[|a| + 1..] == b;
  }

  /** A query piece `key=value`. */
  function Pair(key: string, value: string): string {
    key + "=" + value
  }

  lemma PairOutsideQuery(key: string, value: string)
    requires '&' !in key && '#' !in key && '&' !in value && '#' !in value
    ensures '&' !in Pair(key, value) && '#' !in Pair(key, value)
  {
  }

  lemma ParamOf(key: string, value: string)
    requires '=' !in key
    ensures Param(Pair(key, value)) == (key, value)
  {
    FirstIndexAfter(key, '=', value);
    var p := key + "=" + value;
    assert p[..|key|] == key;
    assert p[|key| + 1..] == value;
  }

  /** A character that is neither the separator nor in any piece is not in their join. */
  lemma {:induction false} JoinAvoids(pieces: seq<string>, sep: char, c: char)
    requires |pieces| >= 1 && c != sep
    requires forall i :: 0 <= i < |pieces| ==> c !in pieces[i]
    ensures c !in Join(pieces, sep)
  {
    if |pieces| > 1 {
      assert forall i :: 0 <= i < |pieces[1..]| ==> pieces[1..][i] == pieces[i + 1];
      JoinAvoids(pieces[1..], sep, c);
    }
  }

  /** The server reads back the pieces of a query joined after a base with no `?`,
      when neither the base nor a piece holds a `#`. */
  lemma QueryParamsJoin(baseUrl: string, pieces: seq<string>)
    requires '?' !in baseUrl && '#' !in baseUrl && |pieces| >= 1
    requires forall i :: 0 <= i < |pieces| ==> '&' !in pieces[i] && '#' !in pieces[i]
    ensures QueryParams(baseUrl + ['?'] + Join(pieces, '&')) == Params(pieces)
  {
    var query := Join(pieces, '&');
    var url := baseUrl + ['?'] + query;
    JoinAvoids(pieces, '&', '#');
    assert '#' !in url;
    FirstIndexAbsent(url, '#');
    assert url[..|url|] == url;
    FirstIndexAfter(baseUrl, '?', query);
    assert url[|baseUrl| + 1..] == query;
    SplitJoin(pieces, '&');
  }

  /** The query of the request URL: one `key=value` piece per parameter. */
  function QueryPieces(functionCode: string, symbol: string, apiKey: string, interval: string): (pieces: seq<string>)
    ensures |pieces| >= 3
  {
    [Pair("function", functionCode), Pair("symbol", symbol), Pair("apikey", apiKey)]
      + (if interval == "intraday" then [Pair("interval", "5min")] else [])
  }

  lemma JoinCons(piece: string, rest: seq<string>, sep: char)
    requires |rest| >= 1
    ensures Join([piece] + rest, sep) == piece + [sep] + Join(rest, sep)
  {
    assert ([piece] + rest)[1..] == rest;
  }

  lemma RequestUrlIsJoin(baseUrl: string, functionCode: string, symbol: string, apiKey: string, interval: string)
    ensures RequestUrl(baseUrl, functionCode, symbol, apiKey, interval)
      == baseUrl + ['?'] + Join(QueryPieces(functionCode, symbol, apiKey, interval), '&')
  {
    var p1, p2, p3 := Pair("function", functionCode), Pair("symbol", symbol), Pair("apikey", apiKey);
    var tail: seq<string> := if interval == "intraday" then [Pair("interval", "5min")] else [];
    var last := if interval == "intraday" then p3 + IntradayQualifier else p3;
    assert Join([p3] + tail, '&') == last by {
      if interval == "intraday" {
        JoinCons(p3, tail, '&');
        assert IntradayQualifier == ['&'] + Pair("interval", "5min");
      } else {
        assert [p3] + tail == [p3];
      }
    }
    JoinCons(p2, [p3] + tail, '&');
    JoinCons(p1, [p2] + ([p3] + tail), '&');
    assert QueryPieces(functionCode, symbol, apiKey, interval) == [p1] + ([p2] + ([p3] + tail));
    var suffix := if interval == "intraday" then IntradayQualifier else "";
    assert last == p3 + suffix;
    assert RequestUrl(baseUrl, functionCode, symbol, apiKey, interval)
      == baseUrl + "?function=" + functionCode + "&symbol=" + symbol + "&apikey=" + apiKey + suffix;
    UrlPrefix(baseUrl, functionCode, symbol, apiKey, suffix);
  }

  /** The f-string, and what follows it, regrouped as the base, a `?` and three
      `&`-separated pieces. */
  lemma UrlPrefix(baseUrl: string, functionCode: string, symbol: string, apiKey: string, suffix: string)
    ensures baseUrl + "?function=" + functionCode + "&symbol=" + symbol + "&apikey=" + apiKey + suffix
      == baseUrl + ['?'] + (Pair("function", functionCode) + ['&'] + (Pair("symbol", symbol) + ['&'] + (Pair("apikey", apiKey) + suffix)))
  {
    assert "?function=" + functionCode == ['?'] + Pair("function", functionCode);
    assert "&symbol=" + symbol == ['&'] + Pair("symbol", symbol);
    assert "&apikey=" + apiKey == ['&'] + Pair("apikey", apiKey);
  }

  /** The URL round-trips through the server's reading of it: when the base URL
      holds no `?` and no `#`, and the symbol and the key consist of unreserved
      characters, the query holds exactly the function, the symbol and the key, in
      that order, and `interval=5min` last exactly for the intraday interval. */
  lemma RequestUrlParams(baseUrl: string, interval: string, symbol: string, apiKey: string)
    requires FunctionFor(interval).Some?
    requires '?' !in baseUrl && '#' !in baseUrl && AllUnreserved(symbol) && AllUnreserved(apiKey)
    ensures var url := RequestUrl(baseUrl, FunctionFor(interval).value, symbol, apiKey, interval);
      QueryParams(url) ==
        [("function", FunctionFor(interval).value), ("symbol", symbol), ("apikey", apiKey)]
        + (if interval == "intraday" then [("interval", "5min")] else [])
  {
    var f := FunctionFor(interval).value;
    FunctionCodeHasNoDelimiter(interval);
    UnreservedHasNoDelimiter(symbol);
    UnreservedHasNoDelimiter(apiKey);
    var pieces := QueryPieces(f, symbol, apiKey, interval);
    RequestUrlIsJoin(baseUrl, f, symbol, apiKey, interval);
    QueryParamsJoin(baseUrl, pieces);
    ParamsOfPieces(f, symbol, apiKey, interval);
  }

  lemma ParamsOfPieces(functionCode: string, symbol: string, apiKey: string, interval: string)
    ensures Params(QueryPieces(functionCode, symbol, apiKey, interval)) ==
      [("function", functionCode), ("symbol", symbol), ("apikey", apiKey)]
        + (if interval == "intraday" then [("interval", "5min")] else [])
  {
    var three := [Pair("function", functionCode), Pair("symbol", symbol), Pair("apikey", apiKey)];
    ParamsOfThree(functionCode, symbol, apiKey);
    if interval == "intraday" {
      ParamsAppend(three, [Pair("interval", "5min")]);
      IntervalParam();
    } else {
      assert QueryPieces(functionCode, symbol, apiKey, interval) == three;
    }
  }

  lemma ParamsOfThree(functionCode: string, symbol: string, apiKey: string)
    ensures Params([Pair("function", functionCode), Pair("symbol", symbol), Pair("apikey", apiKey)])
      == [("function", functionCode), ("symbol", symbol), ("apikey", apiKey)]
  {
    ParamOf("function", functionCode);
    ParamOf("symbol", symbol);
    ParamOf("apikey", apiKey);
  }

  lemma IntervalParam()
    ensures Params([Pair("interval", "5min")]) == [("interval", "5min")]
  {
    ParamOf("interval", "5min");
  }

  lemma ParamsAppend(a: seq<string>, b: seq<string>)
    ensures Params(a + b) == Params(a) + Params(b)
  {
  }

  /** Text of unreserved characters holds no `&` and no `#`. */
  lemma UnreservedHasNoDelimiter(s: string)
    requires AllUnreserved(s)
    ensures '&' !in s && '#' !in s
  {
  }

  lemma FunctionCodeHasNoDelimiter(interval: string)
    requires FunctionFor(interval).Some?
    ensures '&' !in FunctionFor(interval).value && '#' !in FunctionFor(interval).value
  {
    var f := FunctionFor(interval).value;
    assert f in IntervalToFunction.Values;
  }

  /** Because the f-string inserts the symbol without percent-encoding it, a `&` in the
      symbol adds a query parameter of its own: the symbol the server sees is cut at
      the `&`. The client's re-quoting leaves a `&` as it is. */
  lemma SymbolIsNotEncoded(baseUrl: string, interval: string, before: string, after: string, apiKey: string)
    requires FunctionFor(interval).Some? && interval != "intraday"
    requires '?' !in baseUrl && '#' !in baseUrl
    requires AllUnreserved(before) && AllUnreserved(after) && AllUnreserved(apiKey)
    ensures var url := RequestUrl(baseUrl, FunctionFor(interval).value, before + "&" + after, apiKey, interval);
      QueryParams(url) ==
        [("function", FunctionFor(interval).value), ("symbol", before), Param(after), ("apikey", apiKey)]
  {
    var f := FunctionFor(interval).value;
    FunctionCodeHasNoDelimiter(interval);
    UnreservedHasNoDelimiter(before);
    UnreservedHasNoDelimiter(after);
    UnreservedHasNoDelimiter(apiKey);
    var pieces := [Pair("function", f), Pair("symbol", before), after, Pair("apikey", apiKey)];
    PairOutsideQuery("function", f);
    PairOutsideQuery("symbol", before);
    PairOutsideQuery("apikey", apiKey);
    assert forall i :: 0 <= i < |pieces| ==> '&' !in pieces[i] && '#' !in pieces[i];
    RequestUrlIsJoin(baseUrl, f, before + "&" + after, apiKey, interval);
    InjectedPieces(f, before, after, apiKey, interval);
    QueryParamsJoin(baseUrl, pieces);
    InjectedParams(f, before, after, apiKey);
  }

  lemma InjectedParams(functionCode: string, before: string, after: string, apiKey: string)
    ensures Params([Pair("function", functionCode), Pair("symbol", before), after, Pair("apikey", apiKey)])
      == [("function", functionCode), ("symbol", before), Param(after), ("apikey", apiKey)]
  {
    ParamOf("function", functionCode);
    ParamOf("symbol", before);
    ParamOf("apikey", apiKey);
    var ps := Params([Pair("function", functionCode), Pair("symbol", before), after, Pair("apikey", apiKey)]);
    assert ps == [ps[0], ps[1], ps[2], ps[3]];
  }

  /** The query pieces of a symbol holding one `&`, as the server splits them. */
  lemma InjectedPieces(functionCode: string, before: string, after: string, apiKey: string, interval: string)
    requires interval != "intraday"
    ensures Join([Pair("function", functionCode), Pair("symbol", before), after, Pair("apikey", apiKey)], '&')
         == Join(QueryPieces(functionCode, before + "&" + after, apiKey, interval), '&')
  {
    var symbol := before + "&" + after;
    var p1, p3 := Pair("function", functionCode), Pair("apikey", apiKey);
    JoinCons(after, [p3], '&');
    JoinCons(Pair("symbol", before), [after, p3], '&');
    JoinCons(p1, [Pair("symbol", before), after, p3], '&');
    JoinCons(Pair("symbol", symbol), [p3], '&');
    JoinCons(p1, [Pair("symbol", symbol), p3], '&');
    assert Pair("symbol", symbol) == Pair("symbol", before) + ['&'] + after;
    assert [p1] + [Pair("symbol", before), after, p3] == [p1, Pair("symbol", before), after, p3];
    assert QueryPieces(functionCode, symbol, apiKey, interval) == [p1] + [Pair("symbol", symbol), p3];
  }

  // ---------------------------------------------------------------------------
  // One attempt
  // ---------------------------------------------------------------------------

  /** An HTTP response: its status code and its body decoded as JSON, `None` when the
      body is not JSON. */
  datatype HttpResponse = HttpResponse(status: int, body: Option<Json.Value>)

  /** What one attempt can raise. */
  datatype FetchError =
    | ConfigFailed(cause: ConfigError)   // `get_config()` raised
    | InvalidInterval(message: string)   // the interval is not in the table
    | HttpError(status: int)             // `raise_for_status()`
    | BodyNotJson                        // `response.json()` raised
    | RequestFailed(message: string)     // `requests.get` raised: no response arrived

  /** `raise_for_status` raises for client and server errors, 400 to 599. */
  predicate IsHttpError(status: int) {
    400 <= status < 600
  }

  /** Everything an attempt does before the request: read the configuration,
      look the interval up, build the URL. */
  function PrepareRequest(env: Env, symbol: string, interval: string): (r: Result<string, FetchError>)
    ensures GetConfig(env).Err? ==> r == Err(ConfigFailed(GetConfig(env).error))
    ensures GetConfig(env).Ok? && FunctionFor(interval).None? ==> r == Err(InvalidInterval("Invalid interval: " + interval))
    ensures r.Ok? <==> GetConfig(env).Ok? && FunctionFor(interval).Some?
    ensures r.Ok? ==>
      var config := GetConfig(env).value;
      r.value == RequestUrl(config.alphaVantageBaseUrl, FunctionFor(interval).value, symbol, config.alphaVantageApiKey, interval)
  {
    match GetConfig(env)
    case Err(e) => Err(ConfigFailed(e))
    case Ok(config) =>
      match FunctionFor(interval)
      case None => Err(InvalidInterval("Invalid interval: " + interval))
      case Some(f) => Ok(RequestUrl(config.alphaVantageBaseUrl, f, symbol, config.alphaVantageApiKey, interval))
  }

  /** What an attempt makes of the server's answer: a request that failed raises,
      an error status raises, otherwise the decoded body is returned as it is. */
  function Complete(answer: Result<HttpResponse, string>): (r: Result<Json.Value, FetchError>)
    ensures answer.Err? ==> r == Err(RequestFailed(answer.error))
    ensures answer.Ok? && IsHttpError(answer.value.status) ==> r == Err(HttpError(answer.value.status))
    ensures r.Ok? <==> answer.Ok? && !IsHttpError(answer.value.status) && answer.value.body.Some?
    ensures r.Ok? ==> r.value == answer.value.body.value
  {
    match answer
    case Err(message) => Err(RequestFailed(message))
    case Ok(response) =>
      if IsHttpError(response.status) then Err(HttpError(response.status))
      else if response.body.None? then Err(BodyNotJson)
      else Ok(response.body.value)
  }

  /** The undecorated body of `retrieve_time_series` as attempt number `n` (from 0)
      runs it; when it issues a request, that is the `n`-th request, since every
      attempt decides the same way whether to issue one. */
  function Attempt(env: Env, symbol: string, interval: string, server: nat -> Result<HttpResponse, string>, n: nat)
    : (r: Result<Json.Value, FetchError>)
    ensures PrepareRequest(env, symbol, interval).Err? ==> r == Err(PrepareRequest(env, symbol, interval).error)
    ensures PrepareRequest(env, symbol, interval).Ok? && server(n).Err? ==> r == Err(RequestFailed(server(n).error))
    ensures r.Ok? <==>
      && PrepareRequest(env, symbol, interval).Ok?
      && server(n).Ok? && !IsHttpError(server(n).value.status) && server(n).value.body.Some?
    ensures r.Ok? ==> server(n).value.body == Some(r.value)
  {
    match PrepareRequest(env, symbol, interval)
    case Err(e) => Err(e)
    case Ok(_) => Complete(server(n))
  }

  // ---------------------------------------------------------------------------
  // Retry policy: stop_after_attempt(3), wait_exponential(multiplier=1, min=4, max=10)
  // ---------------------------------------------------------------------------

  const MaxAttempts: nat := 3
  const Multiplier: nat := 1
  const MinWait: nat := 4
  const MaxWait: nat := 10

  function Pow2(n: nat): (p: nat)
    ensures p >= 1
  {
    if n == 0 then 1 else 2 * Pow2(n - 1)
  }

  /** The wait after failed attempt number `attemptNumber` (from 1): the exponential
      value `multiplier * 2^(attemptNumber - 1)`, clamped to [min, max]. */
  function WaitAfter(attemptNumber: nat): (w: nat)
    requires attemptNumber >= 1
    ensures MinWait <= w <= MaxWait
    ensures Multiplier * Pow2(attemptNumber - 1) <= MinWait ==> w == MinWait
    ensures MinWait <= Multiplier * Pow2(attemptNumber - 1) <= MaxWait ==> w == Multiplier * Pow2(attemptNumber - 1)
    ensures MaxWait <= Multiplier * Pow2(attemptNumber - 1) ==> w == MaxWait
  {
    var e := Multiplier * Pow2(attemptNumber - 1);
    var capped := if e < MaxWait then e else MaxWait;
    if MinWait < capped then capped else MinWait
  }

  /** With three attempts the exponential never gets past the minimum: both waits are 4. */
  lemma WaitSchedule()
    ensures WaitAfter(1) == 4 && WaitAfter(2) == 4
  {
    assert Pow2(1) == 2;
  }

  /** The error tenacity raises once the attempts are used up, wrapping the last one. */
  datatype RetryFailure = RetryError(lastAttempt: FetchError)

  /** `retrieve_time_series` with its `@retry` decorator: attempt, and on any error wait
      and attempt again, up to three attempts in all. Returns the result, the number
      of attempts, the waits between them and the URLs requested. */
  method RetrieveTimeSeries(env: Env, symbol: string, interval: string, server: nat -> Result<HttpResponse, string>)
    returns (r: Result<Json.Value, RetryFailure>, attempts: nat, waits: seq<nat>, requests: seq<string>)
    ensures 1 <= attempts <= MaxAttempts
    ensures forall n :: 0 <= n < attempts - 1 ==> Attempt(env, symbol, interval, server, n).Err?
    ensures r.Ok? ==> Attempt(env, symbol, interval, server, attempts - 1) == Ok(r.value)
    ensures r.Err? ==>
      attempts == MaxAttempts && Attempt(env, symbol, interval, server, attempts - 1) == Err(r.error.lastAttempt)
    ensures |waits| == attempts - 1
    ensures forall n :: 0 <= n < |waits| ==> waits[n] == WaitAfter(n + 1) && MinWait <= waits[n] <= MaxWait
    ensures PrepareRequest(env, symbol, interval).Err? ==>
      && requests == []
      && r == Err(RetryError(PrepareRequest(env, symbol, interval).error))
    ensures PrepareRequest(env, symbol, interval).Ok? ==>
      && |requests| == attempts
      && forall n :: 0 <= n < attempts ==> requests[n] == PrepareRequest(env, symbol, interval).value
  {
    var attemptNumber := 1;
    waits, requests := [], [];
    while true
      invariant 1 <= attemptNumber <= MaxAttempts
      invariant forall n :: 0 <= n < attemptNumber - 1 ==> Attempt(env, symbol, interval, server, n).Err?
      invariant |waits| == attemptNumber - 1
      invariant forall n :: 0 <= n < |waits| ==> waits[n] == WaitAfter(n + 1)
      invariant PrepareRequest(env, symbol, interval).Err? ==> requests == []
      invariant PrepareRequest(env, symbol, interval).Ok? ==>
        && |requests| == attemptNumber - 1
        && forall n :: 0 <= n < |requests| ==> requests[n] == PrepareRequest(env, symbol, interval).value
      decreases MaxAttempts - attemptNumber
    {
      var outcome: Result<Json.Value, FetchError>;
      var prepared := PrepareRequest(env, symbol, interval);
      if prepared.Ok? {
        requests := requests + [prepared.value];
        outcome := Complete(server(attemptNumber - 1));
      } else {
        outcome := Err(prepared.error);
      }
      if outcome.Ok? {
        return Ok(outcome.value), attemptNumber, waits, requests;
      }
      if attemptNumber == MaxAttempts {
        return Err(RetryError(outcome.error)), attemptNumber, waits, requests;
      }
      waits := waits + [WaitAfter(attemptNumber)];
      attemptNumber := attemptNumber + 1;
    }
  }

  /** Every error is retried, an HTTP 404 included: when every response is a 404,
      all three attempts are made and the last 404 is wrapped in the retry error. */
  method NotFoundIsRetried(env: Env, symbol: string, interval: string, server: nat -> Result<HttpResponse, string>)
    returns (r: Result<Json.Value, RetryFailure>, attempts: nat)
    requires PrepareRequest(env, symbol, interval).Ok?
    requires forall n :: server(n).Ok? && server(n).value.status == 404
    ensures attempts == MaxAttempts
    ensures r == Err(RetryError(HttpError(404)))
  {
    var waits, requests;
    r, attempts, waits, requests := RetrieveTimeSeries(env, symbol, interval, server);
  }
}
