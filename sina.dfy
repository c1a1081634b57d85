/** The Sina quote crawler: one `var hq_str_<code>="f0,f1,...";` line per code, fetched
    from the list endpoint, comma-separated fields mapped onto a Quote. */
module Sina {
  import opened Wrappers
  import opened Text
  import opened Quotes

  const BaseUrl: string := "https://hq.sinajs.cn/list="

  /** The two date-time layouts tried, in order, on fields 30 and 31. */
  const TimeLayouts: seq<string> := ["2006-01-02 15:04:05", "2006/01/02 15:04:05"]

  /** The text before a code's payload. */
  function LinePrefix(code: string): string {
    "var hq_str_" + code + "=\""
  }

  const LineSuffix: string := "\";"

  /** The line the vendor sends for `code` whose payload is the fields joined by commas. */
  function Line(code: string, fields: seq<string>): string {
    LinePrefix(code) + Join(fields, ',') + LineSuffix
  }

  /** The line with the code's prefix and the closing quote stripped (each only when present). */
  function Payload(line: string, code: string): string {
    TrimSuffix(TrimPrefix(line, LinePrefix(code)), LineSuffix)
  }

  function Fields(line: string, code: string): (fields: seq<string>)
    ensures |fields| >= 1
  {
    Split(Payload(line, code), ',')
  }

  /** Whether fields 30 and 31 carry a date and a time to be parsed. */
  predicate HasTimeFields(fields: seq<string>) {
    |fields| > 31 && TrimSpace(fields[30]) != "" && TrimSpace(fields[31]) != ""
  }

  function TimeText(fields: seq<string>): string
    requires |fields| > 31
  {
    TrimSpace(fields[30]) + " " + TrimSpace(fields[31])
  }

  /** The quote time: the first layout matching "date time", else the current instant. */
  function UpdateTime(env: Env, fields: seq<string>): int
  {
    if HasTimeFields(fields) then FirstLayoutTime(env.parseTime, TimeLayouts, TimeText(fields), env.now)
    else env.now
  }

  /** Without both fields, or when neither layout matches, the quote is stamped with the current
      instant; otherwise with the instant of the first layout that matches. */
  lemma UpdateTimeCases(env: Env, fields: seq<string>)
    ensures !HasTimeFields(fields) ==> UpdateTime(env, fields) == env.now
    ensures HasTimeFields(fields) ==>
              var text := TimeText(fields);
              match FirstLayout(env.parseTime, TimeLayouts, text)
              case None => UpdateTime(env, fields) == env.now
              case Some(k) => k < 2 && Some(UpdateTime(env, fields)) == env.parseTime(TimeLayouts[k], text)
                              && (k == 1 ==> env.parseTime(TimeLayouts[0], text).None?)
  {
  }

  /** The quote a set of at least five fields describes. */
  function QuoteOf(env: Env, fields: seq<string>, code: string): Quote
    requires |fields| >= 5
  {
    var price := FieldReal(env.num, fields, 3);
    var prev := FieldReal(env.num, fields, 2);
    Quote(fields[0], code, price, Pct(price, prev), price - prev,
          FieldInt(env.num, fields, 8), FieldReal(env.num, fields, 9), UpdateTime(env, fields))
  }

  /** parseStockData, as a function: fewer than five fields is an error. */
  function ParseLine(env: Env, line: string, code: string): Result<Quote, Error>
  {
    var fields := Fields(line, code);
    if |fields| < 5 then Err(TooFewFields(|fields|)) else Ok(QuoteOf(env, fields, code))
  }

  /** A line is rejected exactly when it has fewer than five fields; an accepted line's quote
      carries the requested code (not one read from the line) and field 0 as its name. */
  lemma ParseLineCases(env: Env, line: string, code: string)
    ensures ParseLine(env, line, code).Err? <==> |Fields(line, code)| < 5
    ensures ParseLine(env, line, code).Err? ==> ParseLine(env, line, code).error == TooFewFields(|Fields(line, code)|)
    ensures ParseLine(env, line, code).Ok? ==>
              ParseLine(env, line, code).value.code == code && ParseLine(env, line, code).value.name == Fields(line, code)[0]
  {
  }

  /** parseStockData: strip, split, map the fields, and try the time layouts in turn. */
  method ParseStockData(env: Env, line: string, code: string) returns (r: Result<Quote, Error>)
    ensures r == ParseLine(env, line, code)
  {
    var raw := TrimPrefix(line, LinePrefix(code));
    raw := TrimSuffix(raw, LineSuffix);
    var fields := Split(raw, ',');
    if |fields| < 5 {
      return Err(TooFewFields(|fields|));
    }
    var price := FieldReal(env.num, fields, 3);
    var prev := FieldReal(env.num, fields, 2);
    var updateTime := env.now;
    if |fields| > 31 {
      var dateStr := TrimSpace(fields[30]);
      var timeStr := TrimSpace(fields[31]);
      if dateStr != "" && timeStr != "" {
        updateTime := ParseWithLayouts(env.parseTime, TimeLayouts, dateStr + " " + timeStr, env.now);
      }
    }
    return Ok(Quote(fields[0], code, price, Pct(price, prev), price - prev,
                    FieldInt(env.num, fields, 8), FieldReal(env.num, fields, 9), updateTime));
  }

  /** A well-formed line gives back exactly the fields it was built from. */
  lemma LineFields(code: string, fields: seq<string>)
    requires |fields| >= 1
    requires forall i :: 0 <= i < |fields| ==> ',' !in fields[i]
    ensures Fields(Line(code, fields), code) == fields
  {
    var body := Join(fields, ',');
    var line := Line(code, fields);
    assert line == LinePrefix(code) + (body + LineSuffix);
    assert TrimPrefix(line, LinePrefix(code)) == body + LineSuffix;
    assert HasSuffix(body + LineSuffix, LineSuffix);
    assert Payload(line, code) == body;
    SplitJoin(fields, ',');
  }

  /** A well-formed line of at least five fields parses, and the quote carries the name,
      the prices and the volume those fields hold. */
  lemma LineRoundTrip(env: Env, code: string, fields: seq<string>)
    requires |fields| >= 5
    requires forall i :: 0 <= i < |fields| ==> ',' !in fields[i]
    ensures ParseLine(env, Line(code, fields), code) == Ok(QuoteOf(env, fields, code))
    ensures ParseLine(env, Line(code, fields), code).value.name == fields[0]
  {
    LineFields(code, fields);
  }

  /** The vendor's answer for an unknown code, an empty payload, is rejected. */
  lemma UnknownCodeRejected(env: Env, code: string)
    ensures ParseLine(env, LinePrefix(code) + LineSuffix, code) == Err(TooFewFields(1))
  {
    var line := LinePrefix(code) + LineSuffix;
    assert TrimPrefix(line, LinePrefix(code)) == LineSuffix;
    assert Payload(line, code) == "";
  }

  // ---------------------------------------------------------------------------
  // Fetching

  /** fetch: the decoded body of a GET, whatever its status; transport failures propagate. */
  function Fetch(env: Env, url: string): (r: Result<string, Error>)
    ensures env.http(Request(url, false)).Err? ==> r == Err(env.http(Request(url, false)).error)
    ensures env.http(Request(url, false)).Ok? ==> r == Ok(env.http(Request(url, false)).value.body)
  {
    match env.http(Request(url, false))
    case Err(e) => Err(e)
    case Ok(resp) => Ok(resp.body)
  }

  /** GetStockData (and GetStockDataRealTime, which is the same call), as a function. */
  function StockData(env: Env, code: string): Result<Quote, Error>
  {
    match Fetch(env, BaseUrl + code)
    case Err(e) => Err(e)
    case Ok(raw) => ParseLine(env, raw, code)
  }

  method GetStockData(env: Env, code: string) returns (r: Result<Quote, Error>)
    ensures r == StockData(env, code)
    ensures r.Ok? ==> r.value.code == code
  {
    var raw := Fetch(env, BaseUrl + code);
    if raw.Err? {
      return Err(raw.error);
    }
    r := ParseStockData(env, raw.value, code);
  }

  /** The quote a batch line contributes: none when it is blank or does not parse. */
  function LineQuote(env: Env, line: string, code: string): (q: Option<Quote>)
    ensures q.Some? <==> !IsBlank(line) && ParseLine(env, line, code).Ok?
    ensures q.Some? ==> q.value == ParseLine(env, line, code).value
  {
    if IsBlank(line) then None
    else match ParseLine(env, line, code)
      case Ok(quote) => Some(quote)
      case Err(_) => None
  }

  /** LineQuote with the environment fixed. */
  function Entry(env: Env): (string, string) -> Option<Quote> {
    (line, code) => LineQuote(env, line, code)
  }

  /** One step of the batch loop: a blank line is skipped, any other is parsed and kept
      only when it parses. */
  method ParseBatchLine(env: Env, line: string, code: string) returns (q: Option<Quote>)
    ensures q == Entry(env)(line, code)
  {
    BlankIffAllSpace(line);
    if TrimSpace(line) == "" {
      return None;
    }
    var data := ParseStockData(env, line, code);
    if data.Err? {
      return None;
    }
    return Some(data.value);
  }


  /** GetMultipleStockData, as a function: no codes means no request and no quotes. */
  function Batch(env: Env, codes: seq<string>): Result<seq<Quote>, Error>
  {
    if |codes| == 0 then Ok([])
    else
      match Fetch(env, BaseUrl + Join(codes, ','))
      case Err(e) => Err(e)
      case Ok(raw) =>
        var lines := Split(raw, '\n');
        Ok(Collect(Entry(env), lines, codes, |lines|))
  }

  /** GetMultipleStockData (and its RealTime form, the same call). */
  method GetMultipleStockData(env: Env, codes: seq<string>) returns (r: Result<seq<Quote>, Error>)
    ensures r == Batch(env, codes)
  {
    if |codes| == 0 {
      return Ok([]);
    }
    var raw := Fetch(env, BaseUrl + Join(codes, ','));
    if raw.Err? {
      return Err(raw.error);
    }
    var lines := Split(raw.value, '\n');
    var results: seq<Quote> := [];
    ghost var entry := Entry(env);
    for i := 0 to |lines|
      invariant results == Collect(entry, lines, codes, i)
    {
      if i < |codes| {
        var quote := ParseBatchLine(env, lines[i], codes[i]);
        if quote.Some? {
          results := results + [quote.value];
        }
      }
    }
    return Ok(results);
  }

  /** A well-formed line of at least five fields contributes its quote to a batch. */
  lemma EntryOfLine(env: Env, code: string, fields: seq<string>)
    requires |fields| >= 5
    requires forall j :: 0 <= j < |fields| ==> ',' !in fields[j]
    ensures Entry(env)(Line(code, fields), code) == Some(QuoteOf(env, fields, code))
  {
    LineRoundTrip(env, code, fields);
    assert !IsSpace(Line(code, fields)[0]);
  }

  /** The Sina batch yields at most one quote per code, each carrying a requested code. */
  lemma BatchBound(env: Env, codes: seq<string>)
    ensures Batch(env, codes).Ok? ==>
              |Batch(env, codes).value| <= |codes| && forall q :: q in Batch(env, codes).value ==> q.code in codes
  {
    if |codes| > 0 && Fetch(env, BaseUrl + Join(codes, ',')).Ok? {
      var lines := Split(Fetch(env, BaseUrl + Join(codes, ',')).value, '\n');
      forall line, code | Entry(env)(line, code).Some? ensures Entry(env)(line, code).value.code == code {
        ParseLineCases(env, line, code);
      }
      CollectBound(Entry(env), lines, codes, |lines|);
      CollectCodes(Entry(env), lines, codes, |lines|);
    }
  }

  /** Each well-formed line is free of newlines and contributes its quote. */
  lemma WellFormedLines(env: Env, codes: seq<string>, rows: seq<seq<string>>, lines: seq<string>)
    requires |rows| == |codes| && |lines| == |codes|
    requires forall i :: 0 <= i < |codes| ==> '\n' !in codes[i]
    requires forall i :: 0 <= i < |rows| ==> |rows[i]| >= 5
    requires forall i, j :: 0 <= i < |rows| && 0 <= j < |rows[i]| ==> ',' !in rows[i][j] && '\n' !in rows[i][j]
    requires forall i :: 0 <= i < |lines| ==> lines[i] == Line(codes[i], rows[i])
    ensures forall i :: 0 <= i < |lines| ==> '\n' !in lines[i]
    ensures forall i :: 0 <= i < |lines| ==> Entry(env)(lines[i], codes[i]) == Some(QuoteOf(env, rows[i], codes[i]))
  {
    forall i | 0 <= i < |lines|
      ensures '\n' !in lines[i] && Entry(env)(lines[i], codes[i]) == Some(QuoteOf(env, rows[i], codes[i]))
    {
      LineNoNewline(codes[i], rows[i]);
      EntryOfLine(env, codes[i], rows[i]);
    }
  }

  /** A line built from newline-free parts has no newline. */
  lemma LineNoNewline(code: string, fields: seq<string>)
    requires '\n' !in code
    requires forall j :: 0 <= j < |fields| ==> '\n' !in fields[j]
    ensures '\n' !in Line(code, fields)
  {
    JoinNoSeparator(fields, ',', '\n');
  }

  /** A response made of one well-formed line per requested code, in order, yields one quote
      per code, in the order of the codes. */
  lemma BatchWellFormed(env: Env, codes: seq<string>, rows: seq<seq<string>>, lines: seq<string>, status: int)
    requires |codes| > 0 && |rows| == |codes| && |lines| == |codes|
    requires forall i :: 0 <= i < |codes| ==> '\n' !in codes[i]
    requires forall i :: 0 <= i < |rows| ==> |rows[i]| >= 5
    requires forall i, j :: 0 <= i < |rows| && 0 <= j < |rows[i]| ==> ',' !in rows[i][j] && '\n' !in rows[i][j]
    requires forall i :: 0 <= i < |lines| ==> lines[i] == Line(codes[i], rows[i])
    requires env.http(Request(BaseUrl + Join(codes, ','), false)) == Ok(Response(status, Join(lines, '\n')))
    ensures Batch(env, codes) == Ok(seq(|codes|, i requires 0 <= i < |codes| => QuoteOf(env, rows[i], codes[i])))
  {
    var qs := seq(|codes|, i requires 0 <= i < |codes| => QuoteOf(env, rows[i], codes[i]));
    WellFormedLines(env, codes, rows, lines);
    SplitJoin(lines, '\n');
    CollectAll(Entry(env), lines, codes, qs, |codes|);
    assert qs[..|codes|] == qs;
  }
}
