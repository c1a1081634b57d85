/** The Tencent quote crawler: one `v_<code>="f0~f1~...";` line per code. The payload is
    the text between the first and the last double quote, split on '~'. Some fields are
    found by probing a list of candidate positions. */
module Tencent {
  import opened Wrappers
  import opened Text
  import opened Quotes

  const BaseUrl: string := "http://qt.gtimg.cn/q="

  /** The layout tried first on field 30. */
  const PrimaryLayout: string := "2006/01/02 15:04:05"

  /** A time of day without a date. */
  const TimeOnlyLayout: string := "15:04:05"

  /** The layouts tried in turn when the primary one fails. The second repeats the primary
      layout. */
  const FallbackLayouts: seq<string> := ["2006-01-02 15:04:05", "2006/01/02 15:04:05", "15:04:05"]

  /** Candidate positions of the volume, then of the turnover, tried in order. */
  const VolumeFields: seq<nat> := [6, 36, 28]
  const AmountFields: seq<nat> := [37, 38]

  const MinFields: nat := 10

  /** The text before the opening quote of a code's line. */
  function LineHead(code: string): string {
    "v_" + code + "="
  }

  /** The line the vendor sends for `code` whose payload is the fields joined by '~':
      `v_<code>="<payload>";`. */
  function Line(code: string, fields: seq<string>): string {
    LineHead(code) + ['"'] + Join(fields, '~') + ['"'] + ";"
  }

  /** The text strictly between the first and the last double quote of `data`. */
  function Content(data: string): (r: Result<string, Error>)
    ensures r.Err? ==> r.error == MalformedQuote
  {
    match (IndexOf(data, '"'), LastIndexOf(data, '"'))
    case (Some(start), Some(end)) =>
      if start >= end then Err(MalformedQuote) else Ok(data[start + 1..end])
    case _ => Err(MalformedQuote)
  }

  /** A payload exists exactly when `data` holds two double quotes. */
  lemma ContentNeedsTwoQuotes(data: string)
    ensures Content(data).Ok? <==> exists i, j :: 0 <= i < j < |data| && data[i] == '"' && data[j] == '"'
  {
    if Content(data).Ok? {
      var start := IndexOf(data, '"').value;
      var end := LastIndexOf(data, '"').value;
      assert data[start] == '"' && data[end] == '"';
    }
    if i, j :| 0 <= i < j < |data| && data[i] == '"' && data[j] == '"' {
      var start := IndexOf(data, '"').value;
      var end := LastIndexOf(data, '"').value;
    }
  }

  /** The payload of text with exactly two double quotes is what lies between them. */
  lemma QuotedContent(a: string, m: string, b: string)
    requires '"' !in a && '"' !in m && '"' !in b
    ensures Content(a + ['"'] + m + ['"'] + b) == Ok(m)
  {
    var s := a + ['"'] + m + ['"'] + b;
    assert s == a + ['"'] + (m + ['"'] + b);
    IndexOfAfter(a, '"', m + ['"'] + b);
    LastIndexOfBefore(a + ['"'] + m, '"', b);
    assert s[|a| + 1..|a| + 1 + |m|] == m;
  }

  /** The payload of a well-formed line is the joined fields. */
  lemma LineContent(code: string, fields: seq<string>)
    requires '"' !in code
    requires forall i :: 0 <= i < |fields| ==> '"' !in fields[i]
    ensures Content(Line(code, fields)) == Ok(Join(fields, '~'))
  {
    JoinNoSeparator(fields, '~', '"');
    assert '"' !in LineHead(code);
    QuotedContent(LineHead(code), Join(fields, '~'), ";");
  }

  // ---------------------------------------------------------------------------
  // Probing candidate fields

  /** Field `idx` exists and parses as a positive number. */
  predicate Usable(num: NumParsers, fields: seq<string>, idx: nat) {
    idx < |fields| && num.float(fields[idx]).Some? && num.float(fields[idx]).value > 0.0
  }

  /** The first candidate position whose field is usable. */
  function Probe(num: NumParsers, fields: seq<string>, candidates: seq<nat>): (r: Option<nat>)
    ensures r.Some? ==> r.value < |candidates| && Usable(num, fields, candidates[r.value])
    ensures r.Some? ==> forall j :: 0 <= j < r.value ==> !Usable(num, fields, candidates[j])
    ensures r.None? ==> forall j :: 0 <= j < |candidates| ==> !Usable(num, fields, candidates[j])
  {
    if |candidates| == 0 then None
    else if Usable(num, fields, candidates[0]) then Some(0)
    else match Probe(num, fields, candidates[1..])
      case None => None
      case Some(k) => Some(k + 1)
  }

  /** The value of the first usable candidate, or 0. */
  function ProbeValue(num: NumParsers, fields: seq<string>, candidates: seq<nat>): (v: real)
    ensures v >= 0.0
  {
    match Probe(num, fields, candidates)
    case None => 0.0
    case Some(k) => num.float(fields[candidates[k]]).value
  }

  /** Go's int64(f) for a non-negative float: truncation. */
  function Truncate(f: real): (n: int)
    requires f >= 0.0
    ensures n as real <= f < n as real + 1.0
  {
    f.Floor
  }

  // ---------------------------------------------------------------------------
  // Change and rate

  /** The vendor's absolute change (field 31) and rate (field 32) unless both are zero, in
      which case both are computed from the price and the previous close when that is not 0. */
  function Change(num: NumParsers, fields: seq<string>, price: real, prev: real): (real, real)
  {
    var changeValue := FieldReal(num, fields, 31);
    var changeRate := FieldReal(num, fields, 32);
    if changeValue == 0.0 && changeRate == 0.0 && prev != 0.0 then
      var computed := price - prev;
      (computed, (computed / prev) * 100.0)
    else (changeValue, changeRate)
  }

  /** The vendor's figures win unless both are zero; then, with a previous close, the change
      is price minus close and the rate is that change in percent of the close. */
  lemma ChangeCases(num: NumParsers, fields: seq<string>, price: real, prev: real)
    ensures var (cv, rate) := Change(num, fields, price, prev);
            var vendor := (FieldReal(num, fields, 31), FieldReal(num, fields, 32));
            (vendor != (0.0, 0.0) ==> (cv, rate) == vendor)
            && (vendor == (0.0, 0.0) && prev == 0.0 ==> (cv, rate) == (0.0, 0.0))
            && (vendor == (0.0, 0.0) && prev != 0.0 ==> cv == price - prev && rate == Pct(price, prev))
  {
  }

  // ---------------------------------------------------------------------------
  // Quote time

  /** The start of the day that holds instant `t`. */
  function DayStart(t: int): int {
    t - t % SecondsPerDay
  }

  /** Today's date with the time of day of `t`. */
  function Today(now: int, t: int): (r: int)
    ensures DayStart(r) == DayStart(now)
    ensures r % SecondsPerDay == t % SecondsPerDay
  {
    DayStart(now) + t % SecondsPerDay
  }

  /** Field 30, trimmed, when it is present and neither empty nor "0". */
  function TimeField(fields: seq<string>): (r: Option<string>)
    ensures r.Some? ==> |fields| > 30 && r.value == TrimSpace(fields[30])
    ensures r.Some? ==> r.value != "" && r.value != "0"
  {
    if |fields| > 30 && TrimSpace(fields[30]) != "" && TrimSpace(fields[30]) != "0" then
      Some(TrimSpace(fields[30]))
    else None
  }

  /** The fallback layouts in turn; a time of day alone is placed on today's date. */
  function FallbackTime(env: Env, text: string): int
  {
    match FirstLayout(env.parseTime, FallbackLayouts, text)
    case None => env.now
    case Some(k) =>
      var t := env.parseTime(FallbackLayouts[k], text).value;
      if FallbackLayouts[k] == TimeOnlyLayout then Today(env.now, t) else t
  }

  /** The quote time read from field 30, else the current instant. */
  function UpdateTime(env: Env, fields: seq<string>): int
  {
    match TimeField(fields)
    case None => env.now
    case Some(text) =>
      match env.parseTime(PrimaryLayout, text)
      case Some(t) => t
      case None => FallbackTime(env, text)
  }

  /** The fallback repeating the primary layout can never be the one that matches: it is
      only tried after the primary layout has failed on the same text. */
  lemma RepeatedLayoutNeverMatches(env: Env, text: string)
    requires env.parseTime(PrimaryLayout, text).None?
    ensures FirstLayout(env.parseTime, FallbackLayouts, text) != Some(1)
  {
  }

  /** How the quote time is chosen. */
  lemma UpdateTimeCases(env: Env, fields: seq<string>)
    ensures TimeField(fields).None? ==> UpdateTime(env, fields) == env.now
    ensures TimeField(fields).Some? ==>
              var text := TimeField(fields).value;
              (env.parseTime(PrimaryLayout, text).Some? ==> Some(UpdateTime(env, fields)) == env.parseTime(PrimaryLayout, text))
              && (env.parseTime(PrimaryLayout, text).None? ==>
                    match FirstLayout(env.parseTime, FallbackLayouts, text)
                    case None => UpdateTime(env, fields) == env.now
                    case Some(k) =>
                      (k == 0 ==> Some(UpdateTime(env, fields)) == env.parseTime(FallbackLayouts[0], text))
                      && k != 1
                      && (k == 2 ==> DayStart(UpdateTime(env, fields)) == DayStart(env.now)
                                     && UpdateTime(env, fields) % SecondsPerDay
                                        == env.parseTime(TimeOnlyLayout, text).value % SecondsPerDay))
  {
    if TimeField(fields).Some? {
      var text := TimeField(fields).value;
      if env.parseTime(PrimaryLayout, text).None? {
        RepeatedLayoutNeverMatches(env, text);
      }
    }
  }

  // ---------------------------------------------------------------------------
  // Parsing

  /** The quote a set of at least ten fields describes. */
  function QuoteOf(env: Env, fields: seq<string>, code: string): Quote
    requires |fields| >= MinFields
  {
    var price := FieldReal(env.num, fields, 3);
    var prev := FieldReal(env.num, fields, 4);
    var (changeValue, changeRate) := Change(env.num, fields, price, prev);
    Quote(TrimSpace(fields[1]), code, price, changeRate, changeValue,
          Truncate(ProbeValue(env.num, fields, VolumeFields)), ProbeValue(env.num, fields, AmountFields),
          UpdateTime(env, fields))
  }

  /** parseStockData, as a function. */
  function ParseData(env: Env, data: string, code: string): Result<Quote, Error>
  {
    match Content(data)
    case Err(e) => Err(e)
    case Ok(content) =>
      var fields := Split(content, '~');
      if |fields| < MinFields then Err(TooFewFields(|fields|)) else Ok(QuoteOf(env, fields, code))
  }

  /** A well-formed line parses when it has at least ten fields, and is rejected with its
      field count otherwise. */
  lemma LineRoundTrip(env: Env, code: string, fields: seq<string>)
    requires '"' !in code && |fields| >= 1
    requires forall i :: 0 <= i < |fields| ==> '"' !in fields[i] && '~' !in fields[i]
    ensures |fields| >= MinFields ==> ParseData(env, Line(code, fields), code) == Ok(QuoteOf(env, fields, code))
    ensures |fields| < MinFields ==> ParseData(env, Line(code, fields), code) == Err(TooFewFields(|fields|))
  {
    LineContent(code, fields);
    SplitJoin(fields, '~');
  }

  /** An accepted quote carries the requested code, the trimmed name, a volume that is the
      truncation of the first usable volume candidate, and a non-negative turnover. */
  lemma ParsedQuote(env: Env, data: string, code: string)
    requires ParseData(env, data, code).Ok?
    ensures var q := ParseData(env, data, code).value;
            var fields := Split(Content(data).value, '~');
            |fields| >= MinFields && q.code == code && q.name == TrimSpace(fields[1])
            && q.volume >= 0 && q.amount >= 0.0
            && q.volume == Truncate(ProbeValue(env.num, fields, VolumeFields))
            && q.amount == ProbeValue(env.num, fields, AmountFields)
            && (Usable(env.num, fields, 6) ==> q.volume == Truncate(env.num.float(fields[6]).value))
            && (Usable(env.num, fields, 37) ==> q.amount == env.num.float(fields[37]).value)
  {
  }

  /** parseStockData: locate the payload, split it, read the fields and probe the candidates. */
  method ParseStockData(env: Env, data: string, originalCode: string) returns (r: Result<Quote, Error>)
    ensures r == ParseData(env, data, originalCode)
  {
    var start := IndexOf(data, '"');
    var end := LastIndexOf(data, '"');
    if start.None? || end.None? || start.value >= end.value {
      return Err(MalformedQuote);
    }
    var content := data[start.value + 1..end.value];
    var fields := Split(content, '~');
    if |fields| < MinFields {
      return Err(TooFewFields(|fields|));
    }
    var quote := ReadQuote(env, fields, originalCode);
    return Ok(quote);
  }

  /** The field-reading part of parseStockData, on a payload of at least ten fields. */
  method ReadQuote(env: Env, fields: seq<string>, originalCode: string) returns (q: Quote)
    requires |fields| >= MinFields
    ensures q == QuoteOf(env, fields, originalCode)
  {
    var stockName := TrimSpace(fields[1]);
    var currentPrice := FieldReal(env.num, fields, 3);
    var yesterdayClose := FieldReal(env.num, fields, 4);

    var volFloat := ProbeFields(env.num, fields, VolumeFields);
    var volume := Truncate(volFloat);

    var changeValue := FieldReal(env.num, fields, 31);
    var changeRate := FieldReal(env.num, fields, 32);
    if changeValue == 0.0 && changeRate == 0.0 && yesterdayClose != 0.0 {
      changeValue := currentPrice - yesterdayClose;
      changeRate := (changeValue / yesterdayClose) * 100.0;
    }

    var amount := ProbeFields(env.num, fields, AmountFields);

    var updateTime := ReadUpdateTime(env, fields);
    return Quote(stockName, originalCode, currentPrice, changeRate, changeValue, volume, amount, updateTime);
  }

  /** The time block: field 30 under the primary layout, else the fallbacks, else now. */
  method ReadUpdateTime(env: Env, fields: seq<string>) returns (t: int)
    ensures t == UpdateTime(env, fields)
  {
    match TimeField(fields)
    case None =>
      t := env.now;
    case Some(timeStr) =>
      var primary := env.parseTime(PrimaryLayout, timeStr);
      if primary.Some? {
        t := primary.value;
      } else {
        t := ParseFallbacks(env, timeStr);
      }
  }

  /** A probing loop: the first candidate whose field parses as a positive number gives the
      value; 0 when none does. */
  method ProbeFields(num: NumParsers, fields: seq<string>, candidates: seq<nat>) returns (v: real)
    ensures v == ProbeValue(num, fields, candidates)
  {
    v := 0.0;
    for k := 0 to |candidates|
      invariant forall j :: 0 <= j < k ==> !Usable(num, fields, candidates[j])
    {
      var idx := candidates[k];
      if Usable(num, fields, idx) {
        v := num.float(fields[idx]).value;
        assert Probe(num, fields, candidates) == Some(k);
        return;
      }
    }
  }

  /** The fallback loop: the first layout that parses decides; a time of day alone is placed
      on today's date. */
  method ParseFallbacks(env: Env, timeStr: string) returns (t: int)
    ensures t == FallbackTime(env, timeStr)
  {
    t := env.now;
    for k := 0 to |FallbackLayouts|
      invariant forall j :: 0 <= j < k ==> env.parseTime(FallbackLayouts[j], timeStr).None?
    {
      var format := FallbackLayouts[k];
      var parsed := env.parseTime(format, timeStr);
      if parsed.Some? {
        assert FirstLayout(env.parseTime, FallbackLayouts, timeStr) == Some(k);
        if format == TimeOnlyLayout {
          t := DayStart(env.now) + parsed.value % SecondsPerDay;
        } else {
          t := parsed.value;
        }
        return;
      }
    }
  }

  // ---------------------------------------------------------------------------
  // Fetching

  /** GetStockData (`realTime` false) and GetStockDataRealTime (`realTime` true), as a
      function: a transport failure, a status other than 200, and an empty body or one without
      a double quote are errors; otherwise the whole body is parsed. */
  function StockData(env: Env, code: string, realTime: bool): (r: Result<Quote, Error>)
    ensures env.http(Request(BaseUrl + code, realTime)).Err? ==> r == Err(env.http(Request(BaseUrl + code, realTime)).error)
    ensures env.http(Request(BaseUrl + code, realTime)).Ok? ==>
              var resp := env.http(Request(BaseUrl + code, realTime)).value;
              (resp.status != 200 ==> r == Err(BadStatus(resp.status)))
              && (resp.status == 200 && '"' !in resp.body ==> r == Err(EmptyResponse))
              && (resp.status == 200 && '"' in resp.body ==> r == ParseData(env, resp.body, code))
  {
    match env.http(Request(BaseUrl + code, realTime))
    case Err(e) => Err(e)
    case Ok(resp) =>
      if resp.status != 200 then Err(BadStatus(resp.status))
      else if resp.body == "" || '"' !in resp.body then Err(EmptyResponse)
      else ParseData(env, resp.body, code)
  }

  method GetStockData(env: Env, convertedStockCode: string, realTime: bool) returns (r: Result<Quote, Error>)
    ensures r == StockData(env, convertedStockCode, realTime)
  {
    var resp := env.http(Request(BaseUrl + convertedStockCode, realTime));
    if resp.Err? {
      return Err(resp.error);
    }
    if resp.value.status != 200 {
      return Err(BadStatus(resp.value.status));
    }
    var responseStr := resp.value.body;
    if responseStr == "" || '"' !in responseStr {
      return Err(EmptyResponse);
    }
    r := ParseStockData(env, responseStr, convertedStockCode);
  }

  /** The quote a batch line contributes: none when it is blank or does not parse. */
  function LineQuote(env: Env, line: string, code: string): Option<Quote>
  {
    if IsBlank(line) then None
    else match ParseData(env, line, code)
      case Ok(quote) => Some(quote)
      case Err(_) => None
  }

  function Entry(env: Env): (string, string) -> Option<Quote> {
    (line, code) => LineQuote(env, line, code)
  }

  /** One step of the batch loop: a blank line is skipped, any other is parsed and kept
      only when it parses. */
  method ParseBatchLine(env: Env, line: string, code: string) returns (q: Option<Quote>)
    ensures q == Entry(env)(line, code)
  {
    BlankIffAllSpace(line);
    if TrimSpace(line) == "" {
      return None;
    }
    var data := ParseStockData(env, line, code);
    if data.Err? {
      return None;
    }
    return Some(data.value);
  }


  /** GetMultipleStockData (`realTime` false) and its RealTime form, as a function. Unlike the
      single fetch, the status and the presence of quotes are not checked. */
  function Batch(env: Env, codes: seq<string>, realTime: bool): Result<seq<Quote>, Error>
  {
    if |codes| == 0 then Ok([])
    else
      match env.http(Request(BaseUrl + Join(codes, ','), realTime))
      case Err(e) => Err(e)
      case Ok(resp) =>
        var lines := Split(resp.body, '\n');
        Ok(Collect(Entry(env), lines, codes, |lines|))
  }

  method GetMultipleStockData(env: Env, codes: seq<string>, realTime: bool) returns (r: Result<seq<Quote>, Error>)
    ensures r == Batch(env, codes, realTime)
  {
    if |codes| == 0 {
      return Ok([]);
    }
    var resp := env.http(Request(BaseUrl + Join(codes, ','), realTime));
    if resp.Err? {
      return Err(resp.error);
    }
    var lines := Split(resp.value.body, '\n');
    var results: seq<Quote> := [];
    ghost var entry := Entry(env);
    for i := 0 to |lines|
      invariant results == Collect(entry, lines, codes, i)
    {
      if i < |codes| {
        var quote := ParseBatchLine(env, lines[i], codes[i]);
        if quote.Some? {
          results := results + [quote.value];
        }
      }
    }
    return Ok(results);
  }

  /** The Tencent batch yields at most one quote per code, each carrying a requested code. */
  lemma BatchBound(env: Env, codes: seq<string>, realTime: bool)
    ensures Batch(env, codes, realTime).Ok? ==>
              |Batch(env, codes, realTime).value| <= |codes|
              && forall q :: q in Batch(env, codes, realTime).value ==> q.code in codes
  {
    var resp := env.http(Request(BaseUrl + Join(codes, ','), realTime));
    if |codes| > 0 && resp.Ok? {
      var lines := Split(resp.value.body, '\n');
      forall line, code | Entry(env)(line, code).Some? ensures Entry(env)(line, code).value.code == code {
        if !IsBlank(line) && ParseData(env, line, code).Ok? {
          ParsedQuote(env, line, code);
        }
      }
      CollectBound(Entry(env), lines, codes, |lines|);
      CollectCodes(Entry(env), lines, codes, |lines|);
    }
  }

  /** A well-formed line of at least ten fields contributes its quote to a batch. */
  lemma EntryOfLine(env: Env, code: string, fields: seq<string>)
    requires '"' !in code && |fields| >= MinFields
    requires forall j :: 0 <= j < |fields| ==> '"' !in fields[j] && '~' !in fields[j]
    ensures Entry(env)(Line(code, fields), code) == Some(QuoteOf(env, fields, code))
  {
    LineRoundTrip(env, code, fields);
    assert Line(code, fields)[0] == 'v';
  }

  /** A line built from newline-free parts has no newline. */
  lemma LineNoNewline(code: string, fields: seq<string>)
    requires '\n' !in code
    requires forall j :: 0 <= j < |fields| ==> '\n' !in fields[j]
    ensures '\n' !in Line(code, fields)
  {
    JoinNoSeparator(fields, '~', '\n');
  }

  /** Each well-formed line is free of newlines and contributes its quote. */
  lemma WellFormedLines(env: Env, codes: seq<string>, rows: seq<seq<string>>, lines: seq<string>, qs: seq<Quote>)
    requires |rows| == |codes| && |lines| == |codes| && |qs| == |codes|
    requires forall i :: 0 <= i < |codes| ==> '\n' !in codes[i] && '"' !in codes[i]
    requires forall i :: 0 <= i < |rows| ==> |rows[i]| >= MinFields
    requires forall i, j :: 0 <= i < |rows| && 0 <= j < |rows[i]| ==>
               '~' !in rows[i][j] && '"' !in rows[i][j] && '\n' !in rows[i][j]
    requires forall i :: 0 <= i < |lines| ==> lines[i] == Line(codes[i], rows[i])
    requires forall i :: 0 <= i < |qs| ==> qs[i] == QuoteOf(env, rows[i], codes[i])
    ensures forall i :: 0 <= i < |lines| ==> '\n' !in lines[i]
    ensures forall i :: 0 <= i < |lines| ==> Entry(env)(lines[i], codes[i]) == Some(qs[i])
  {
    forall i | 0 <= i < |lines|
      ensures '\n' !in lines[i] && Entry(env)(lines[i], codes[i]) == Some(qs[i])
    {
      LineNoNewline(codes[i], rows[i]);
      EntryOfLine(env, codes[i], rows[i]);
    }
  }

  /** Newline-free lines that each contribute a quote, joined and split again, give those
      quotes in order. */
  lemma CollectWellFormed(env: Env, codes: seq<string>, lines: seq<string>, qs: seq<Quote>)
    requires |codes| > 0 && |lines| == |codes| && |qs| == |codes|
    requires forall i :: 0 <= i < |lines| ==> '\n' !in lines[i]
    requires forall i :: 0 <= i < |lines| ==> Entry(env)(lines[i], codes[i]) == Some(qs[i])
    ensures Split(Join(lines, '\n'), '\n') == lines
    ensures Collect(Entry(env), lines, codes, |lines|) == qs
  {
    SplitJoin(lines, '\n');
    CollectAll(Entry(env), lines, codes, qs, |codes|);
    assert qs[..|codes|] == qs;
  }

  /** A response made of one well-formed line per requested code, in order, yields exactly
      one quote per code, in the order of the codes, whatever the status. */
  lemma BatchWellFormed(env: Env, codes: seq<string>, rows: seq<seq<string>>, lines: seq<string>,
                        status: int, realTime: bool)
    requires |codes| > 0 && |rows| == |codes| && |lines| == |codes|
    requires forall i :: 0 <= i < |codes| ==> '\n' !in codes[i] && '"' !in codes[i]
    requires forall i :: 0 <= i < |rows| ==> |rows[i]| >= MinFields
    requires forall i, j :: 0 <= i < |rows| && 0 <= j < |rows[i]| ==>
               '~' !in rows[i][j] && '"' !in rows[i][j] && '\n' !in rows[i][j]
    requires forall i :: 0 <= i < |lines| ==> lines[i] == Line(codes[i], rows[i])
    requires env.http(Request(BaseUrl + Join(codes, ','), realTime)) == Ok(Response(status, Join(lines, '\n')))
    ensures Batch(env, codes, realTime)
            == Ok(seq(|codes|, i requires 0 <= i < |codes| => QuoteOf(env, rows[i], codes[i])))
  {
    var qs := seq(|codes|, i requires 0 <= i < |codes| => QuoteOf(env, rows[i], codes[i]));
    WellFormedLines(env, codes, rows, lines, qs);
    CollectWellFormed(env, codes, lines, qs);
    assert Batch(env, codes, realTime)
           == Ok(Collect(Entry(env), Split(Join(lines, '\n'), '\n'), codes, |Split(Join(lines, '\n'), '\n')|));
  }

  /** A batch answer with a failing status is still parsed, whereas the same answer to a
      single fetch is an error. */
  lemma StatusCheckedOnlySingly(env: Env, code: string, realTime: bool, body: string)
    requires env.http(Request(BaseUrl + code, realTime)) == Ok(Response(500, body))
    ensures StockData(env, code, realTime) == Err(BadStatus(500))
    ensures Batch(env, [code], realTime).Ok?
  {
    assert Join([code], ',') == code;
  }

  /** When the endpoint answers the no-cache request as it answers the plain one, the
      real-time calls return what the plain ones return. */
  lemma RealTimeAgrees(env: Env, codes: seq<string>)
    requires forall url :: env.http(Request(url, true)) == env.http(Request(url, false))
    ensures forall code :: StockData(env, code, true) == StockData(env, code, false)
    ensures Batch(env, codes, true) == Batch(env, codes, false)
  {
    forall code ensures StockData(env, code, true) == StockData(env, code, false) {
      assert env.http(Request(BaseUrl + code, true)) == env.http(Request(BaseUrl + code, false));
    }
  }
}
