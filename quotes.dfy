/** The records the quote-aggregation core passes around, its error values, and the
    outside world it depends on (HTTP, number and time parsing, the clock), which the
    model receives as parameters. */
module Quotes {
  import opened Wrappers

  /** A normalised vendor quote (crawler.StockData). `change` is the percentage change,
      `changeValue` the absolute change; `updateTime` is in seconds on the model's clock. */
  datatype Quote = Quote(
    name: string,
    code: string,
    price: real,
    change: real,
    changeValue: real,
    volume: int,
    amount: real,
    updateTime: int)

  /** A catalogue entry pairing an A-share code with an H-share code (stock.StockPair). */
  datatype StockPair = StockPair(id: nat, stockName: string, aStockCode: string, hStockCode: string)

  /** The paired quote served to callers (HAStockData); a leg is None when it was null. */
  datatype HAStockData = HAStockData(
    stockName: string,
    hStockCode: string,
    hStockData: Option<Quote>,
    aStockCode: string,
    aStockData: Option<Quote>)

  datatype Leg = ALeg | HLeg

  datatype Error =
    | InvalidCodeFormat(code: string)         // "invalid stock code format"
    | UnsupportedSource(source: string)
    | UnsupportedRegion(region: string)
    | NoFormatForRegion(region: string)
    | InvalidCode(cause: Error)               // "invalid stock code: %w"
    | ConvertFailed(cause: Error)             // "failed to convert code: %w"
    | TooFewFields(count: nat)
    | MalformedQuote                          // no quoted payload in a Tencent line
    | EmptyResponse                           // empty body or no quote character
    | BadStatus(status: int)
    | Transport(detail: string)               // request, connection or read failure
    | CrawlerMissing(source: string)
    | LegFailed(leg: Leg, cause: Error)
    | PairFailed(causes: seq<Error>)          // one or both legs of a pair failed
    | RepositoryFailed(detail: string)
    | PairsUnavailable(cause: Error)          // "获取股票对失败: %w"
    | NoDataFetched                           // a forced refresh produced nothing
    | BatchCacheWriteFailed
    | AllCacheWriteFailed
    | AllCacheDeleteFailed
    | CacheDeleteFailed(key: string)
    | RefreshFailed(cause: Error)

  /** Number syntax, as an oracle: Go strconv.ParseFloat / ParseInt, or Python float() / int(). */
  datatype NumParsers = NumParsers(float: string -> Option<real>, integer: string -> Option<int>)

  /** One outbound HTTP GET: the URL up to any cache-busting timestamp, and whether the
      real-time (no-cache) form of the request is sent. */
  datatype Request = Request(url: string, realTime: bool)

  datatype Response = Response(status: int, body: string)

  /** The world a Go-side call sees: the vendor endpoints, number syntax, time-layout
      parsing (`parseTime(layout, text)` is the instant `text` denotes under the Go layout,
      if it matches), and the current instant. */
  datatype Env = Env(
    http: Request -> Result<Response, Error>,
    num: NumParsers,
    parseTime: (string, string) -> Option<int>,
    now: int)

  const SecondsPerDay: int := 86400

  // ---------------------------------------------------------------------------
  // Field access shared by the vendor parsers

  /** Field `idx` as a float; 0 when it is missing or does not parse. */
  function FieldReal(num: NumParsers, fields: seq<string>, idx: nat): (v: real)
    ensures idx >= |fields| ==> v == 0.0
    ensures idx < |fields| && num.float(fields[idx]).Some? ==> v == num.float(fields[idx]).value
    ensures idx < |fields| && num.float(fields[idx]).None? ==> v == 0.0
  {
    if idx < |fields| then num.float(fields[idx]).GetOr(0.0) else 0.0
  }

  /** Field `idx` as a decimal integer; 0 when it is missing or does not parse. */
  function FieldInt(num: NumParsers, fields: seq<string>, idx: nat): (v: int)
    ensures idx >= |fields| ==> v == 0
    ensures idx < |fields| && num.integer(fields[idx]).Some? ==> v == num.integer(fields[idx]).value
    ensures idx < |fields| && num.integer(fields[idx]).None? ==> v == 0
  {
    if idx < |fields| then num.integer(fields[idx]).GetOr(0) else 0
  }

  /** Percentage change from `prev` to `curr`; 0 when there is no previous price. */
  function Pct(curr: real, prev: real): real
  {
    if prev != 0.0 then (curr - prev) / prev * 100.0 else 0.0
  }

  /** The percentage scaled by the previous price is the change times a hundred; no change,
      or no previous price, is 0 %. */
  lemma PctScale(curr: real, prev: real)
    ensures prev != 0.0 ==> Pct(curr, prev) * prev == (curr - prev) * 100.0
    ensures prev == 0.0 || curr == prev ==> Pct(curr, prev) == 0.0
  {
  }

  /** The first of `layouts` under which `text` parses, as an index into `layouts`. */
  function FirstLayout(parseTime: (string, string) -> Option<int>, layouts: seq<string>, text: string): (r: Option<nat>)
    ensures r.Some? ==> r.value < |layouts| && parseTime(layouts[r.value], text).Some?
    ensures r.Some? ==> forall j :: 0 <= j < r.value ==> parseTime(layouts[j], text).None?
    ensures r.None? ==> forall j :: 0 <= j < |layouts| ==> parseTime(layouts[j], text).None?
  {
    if |layouts| == 0 then None
    else if parseTime(layouts[0], text).Some? then Some(0)
    else match FirstLayout(parseTime, layouts[1..], text)
      case None => None
      case Some(k) => Some(k + 1)
  }

  /** The instant of the first matching layout, or `default` when none matches. */
  function FirstLayoutTime(parseTime: (string, string) -> Option<int>, layouts: seq<string>, text: string, default: int): int
  {
    match FirstLayout(parseTime, layouts, text)
    case None => default
    case Some(k) => parseTime(layouts[k], text).value
  }

  /** The layout loop of the vendor parsers: try each layout in order and keep the first
      instant that parses; `default` when none does. */
  method ParseWithLayouts(parseTime: (string, string) -> Option<int>, layouts: seq<string>, text: string, default: int)
    returns (t: int)
    ensures t == FirstLayoutTime(parseTime, layouts, text, default)
  {
    t := default;
    for i := 0 to |layouts|
      invariant forall j :: 0 <= j < i ==> parseTime(layouts[j], text).None?
    {
      var parsed := parseTime(layouts[i], text);
      if parsed.Some? {
        t := parsed.value;
        assert FirstLayout(parseTime, layouts, text) == Some(i);
        return;
      }
    }
  }

  // ---------------------------------------------------------------------------
  // Pairing the lines of a batch response with the requested codes

  /** The quotes collected from the first `n` lines: line `i` is paired with `codes[i]`;
      lines past the codes and lines for which `entry` gives nothing are skipped
      (the batch loop shared by both vendors). */
  function Collect(entry: (string, string) -> Option<Quote>, lines: seq<string>, codes: seq<string>, n: nat)
    : (qs: seq<Quote>)
    requires n <= |lines|
    ensures |qs| <= n
  {
    if n == 0 then []
    else
      var i := n - 1;
      var prior := Collect(entry, lines, codes, i);
      if i < |codes| && entry(lines[i], codes[i]).Some? then prior + [entry(lines[i], codes[i]).value]
      else prior
  }

  /** No more quotes than codes: lines past the last code never count. */
  lemma {:induction false} CollectBound(entry: (string, string) -> Option<Quote>, lines: seq<string>,
                                         codes: seq<string>, n: nat)
    requires n <= |lines|
    ensures |Collect(entry, lines, codes, n)| <= |codes|
    ensures n >= |codes| ==> Collect(entry, lines, codes, n) == Collect(entry, lines, codes, |codes|)
    decreases n
  {
    if n > 0 {
      CollectBound(entry, lines, codes, n - 1);
    }
  }

  /** Every collected quote carries one of the requested codes. */
  lemma {:induction false} CollectCodes(entry: (string, string) -> Option<Quote>, lines: seq<string>,
                                         codes: seq<string>, n: nat)
    requires n <= |lines|
    requires forall line, code :: entry(line, code).Some? ==> entry(line, code).value.code == code
    ensures forall q :: q in Collect(entry, lines, codes, n) ==> q.code in codes
    decreases n
  {
    if n > 0 {
      CollectCodes(entry, lines, codes, n - 1);
    }
  }

  /** When every line up to `n` contributes a quote, the batch is exactly those quotes, in the
      order of the codes. */
  lemma {:induction false} CollectAll(entry: (string, string) -> Option<Quote>, lines: seq<string>,
                                       codes: seq<string>, qs: seq<Quote>, n: nat)
    requires n <= |lines| && n <= |codes| && n <= |qs|
    requires forall i :: 0 <= i < n ==> entry(lines[i], codes[i]) == Some(qs[i])
    ensures Collect(entry, lines, codes, n) == qs[..n]
    decreases n
  {
    if n > 0 {
      CollectAll(entry, lines, codes, qs, n - 1);
      assert qs[..n] == qs[..n - 1] + [qs[n - 1]];
    }
  }
}
