/** The legacy Python fetcher (StockDataFetcher): it maps the catalogue's dotted codes onto
    vendor codes, fetches A shares from Sina and Hong Kong shares from Tencent's real-time
    endpoint, and merges both into one dict keyed by code. A line that fails to parse is
    skipped; a request that raises yields an empty dict. */
module LegacyFetcher {
  import opened Wrappers
  import opened Text
  import opened Quotes
  import opened PyRuntime
  import StockConverter
  import HAStock
  import Sina
  import Tencent

  /** One entry of the result dict. Both change keys are always present; they are 0 when
      there is no positive previous close. */
  datatype Price = Price(
    name: string,
    currentPrice: real,
    yesterdayClose: real,
    todayOpen: real,
    todayHigh: real,
    todayLow: real,
    volume: int,
    date: string,
    time: string,
    change: real,
    changePercent: real)

  // ---------------------------------------------------------------------------
  // parse_stock_code

  /** The vendor code for a number and a lower-cased exchange suffix: sh, sz and bj are
      prefixed as they are, hk and hkg pad the number to five digits, others give None. */
  function ExchangeCode(number: string, exchange: string): Option<string> {
    if exchange == "sh" then Some("sh" + number)
    else if exchange == "sz" then Some("sz" + number)
    else if exchange == "bj" then Some("bj" + number)
    else if exchange == "hk" || exchange == "hkg" then Some("hk" + ZFill(number, 5))
    else None
  }

  /** parse_stock_code: "600036.SH" becomes "sh600036" and "939.HK" becomes "hk00939";
      empty or 'nan' input, input without a dot and an unknown suffix give None. */
  function ParseCode(stockCode: string): Option<string> {
    if stockCode == "" || stockCode == "nan" then None
    else
      var code := TrimSpace(stockCode);
      match IndexOf(code, '.')
      case None => None
      case Some(d) => ExchangeCode(code[..d], ToLower(code[d + 1..]))
  }

  /** Trimming twice is trimming once. */
  lemma TrimSpaceIdempotent(s: string)
    ensures TrimSpace(TrimSpace(s)) == TrimSpace(s)
  {
    var l := TrimLeft(s);
    var t := TrimRight(l);
    assert TrimSpace(s) == t;
    if t != "" {
      assert t == l[..|t|];
      assert !IsSpace(t[0]) && !IsSpace(t[|t| - 1]);
      TrimSpaceKeeps(t);
    }
  }

  /** Zero padding adds no character other than '0'. */
  lemma ZFillKeepsOut(number: string, width: nat, c: char)
    requires c !in number && c != '0'
    ensures c !in ZFill(number, width)
  {
    var z := ZFill(number, width);
    if |number| < width {
      var pad := width - |number|;
      forall i | 0 <= i < |z| ensures z[i] != c {
        if |number| > 0 && (number[0] == '+' || number[0] == '-') {
          assert z == [number[0]] + Repeat('0', pad) + number[1..];
          if i > pad {
            assert z[i] == number[i - pad];
          }
        } else if i >= pad {
          assert z[i] == number[i - pad];
        }
      }
    }
  }

  /** Every code made from a dot-free number is a two-letter market prefix and no dot. */
  lemma ExchangeCodeShape(number: string, exchange: string)
    requires '.' !in number
    ensures ExchangeCode(number, exchange).Some? ==>
              var r := ExchangeCode(number, exchange).value;
              |r| >= 2 && r[..2] in ["sh", "sz", "bj", "hk"] && '.' !in r
  {
    if ExchangeCode(number, exchange).Some? {
      var r := ExchangeCode(number, exchange).value;
      ZFillKeepsOut(number, 5, '.');
      assert r[2..] == number || r[2..] == ZFill(number, 5);
      assert r == r[..2] + r[2..];
    }
  }

  /** Surrounding white space never matters, and every accepted code is a two-letter
      market prefix with no dot after it. */
  lemma ParseCodeShape(stockCode: string)
    ensures ParseCode(stockCode) == ParseCode(TrimSpace(stockCode))
    ensures '.' !in TrimSpace(stockCode) ==> ParseCode(stockCode) == None
    ensures ParseCode(stockCode).Some? ==>
              var r := ParseCode(stockCode).value;
              |r| >= 2 && r[..2] in ["sh", "sz", "bj", "hk"] && '.' !in r
  {
    ParseCodeTrimmed(stockCode);
    if ParseCode(stockCode).Some? {
      var code := TrimSpace(stockCode);
      var d := IndexOf(code, '.').value;
      ExchangeCodeShape(code[..d], ToLower(code[d + 1..]));
    }
  }

  /** ParseCode reads the trimmed code, so trimming first changes nothing. */
  lemma ParseCodeTrimmed(stockCode: string)
    ensures ParseCode(stockCode) == ParseCode(TrimSpace(stockCode))
  {
    var code := TrimSpace(stockCode);
    TrimSpaceIdempotent(stockCode);
    if code == "" || code == "nan" {
      assert '.' !in code;
    }
  }

  /** A trimmed "number.suffix" with a dot-free number is split at that dot. */
  lemma ParseCodeSplits(number: string, suffix: string)
    requires '.' !in number && |number| > 0 && !IsSpace(number[0])
    requires |suffix| > 0 && !IsSpace(suffix[|suffix| - 1])
    ensures ParseCode(number + "." + suffix) == ExchangeCode(number, ToLower(suffix))
  {
    var s := number + "." + suffix;
    assert s[0] == number[0] && s[|s| - 1] == suffix[|suffix| - 1];
    assert s[|number|] == '.';
    assert s != "" && s != "nan" by {
      assert '.' in s && '.' !in "nan";
    }
    TrimSpaceKeeps(s);
    IndexOfAfter(number, '.', suffix);
    assert s[..|number|] == number && s[|number| + 1..] == suffix;
  }

  /** A trimmed "number.suffix" with a dot-free number maps by its lower-cased suffix:
      sh, sz and bj are prefixed as they are, hk and hkg pad the number to five digits, and
      any other suffix is refused. */
  lemma ParseCodeDotted(number: string, suffix: string)
    requires '.' !in number && |number| > 0 && !IsSpace(number[0])
    requires |suffix| > 0 && !IsSpace(suffix[|suffix| - 1])
    ensures ToLower(suffix) in ["sh", "sz", "bj"] ==> ParseCode(number + "." + suffix) == Some(ToLower(suffix) + number)
    ensures ToLower(suffix) in ["hk", "hkg"] ==> ParseCode(number + "." + suffix) == Some("hk" + ZFill(number, 5))
    ensures ToLower(suffix) !in ["sh", "sz", "bj", "hk", "hkg"] ==> ParseCode(number + "." + suffix) == None
  {
    ParseCodeSplits(number, suffix);
    ExchangeCodeCases(number, ToLower(suffix));
  }

  /** The three cases of ExchangeCode by suffix. */
  lemma ExchangeCodeCases(number: string, exchange: string)
    ensures exchange in ["sh", "sz", "bj"] ==> ExchangeCode(number, exchange) == Some(exchange + number)
    ensures exchange in ["hk", "hkg"] ==> ExchangeCode(number, exchange) == Some("hk" + ZFill(number, 5))
    ensures exchange !in ["sh", "sz", "bj", "hk", "hkg"] ==> ExchangeCode(number, exchange) == None
  {
  }

  /** The digits of a number stay digits once zero-padded. */
  lemma ZFillDigits(number: string, width: nat)
    requires |number| > 0 && AllDigits(number)
    ensures |ZFill(number, width)| > 0 && AllDigits(ZFill(number, width))
  {
    var z := ZFill(number, width);
    if |number| < width {
      assert number[0] != '+' && number[0] != '-';
      forall i | 0 <= i < |z| ensures IsDigit(z[i]) {
        if i >= width - |number| {
          assert z[i] == number[i - (width - |number|)];
        }
      }
    }
  }

  /** The Go converter accepts every code the legacy parser makes from a Shanghai, Shenzhen
      or Hong Kong listing and leaves it unchanged, for either vendor; a Beijing code it
      refuses as an unsupported region. */
  lemma LegacyCodeConverts(number: string, suffix: string, source: string)
    requires |number| > 0 && AllDigits(number) && source in StockConverter.Converters
    requires ToLower(suffix) in ["sh", "sz", "bj", "hk", "hkg"]
    ensures ParseCode(number + "." + suffix).Some?
    ensures ToLower(suffix) != "bj" ==>
              StockConverter.ConvertForSource(ParseCode(number + "." + suffix).value, source)
              == Ok(ParseCode(number + "." + suffix).value)
    ensures ToLower(suffix) == "bj" ==>
              StockConverter.ConvertForSource(ParseCode(number + "." + suffix).value, source)
              == Err(UnsupportedRegion("bj"))
  {
    var lower := ToLower(suffix);
    assert lower[|suffix| - 1] == LowerChar(suffix[|suffix| - 1]);
    assert !IsSpace(number[0]);
    ParseCodeDotted(number, suffix);
    if lower == "hk" || lower == "hkg" {
      ZFillDigits(number, 5);
      StockConverter.KnownCodeConverts("hk", ZFill(number, 5), source);
    } else if lower == "bj" {
      StockConverter.TwoLetterCodeParses("bj", number);
    } else {
      StockConverter.KnownCodeConverts(lower, number, source);
    }
  }

  /** The legacy parser and the Go convertStockCode agree on upper-case SH and SZ listings;
      for HK the legacy parser pads the number to five digits and the Go one does not, so
      the two differ on any Hong Kong number shorter than five digits. */
  lemma LegacyAgainstDotted(number: string, market: string)
    requires |number| > 0 && AllDigits(number) && market in HAStock.Markets
    ensures market != "HK" ==> ParseCode(number + "." + market) == Some(HAStock.DottedCode(number + "." + market))
    ensures market == "HK" ==> ParseCode(number + "." + market) == Some("hk" + ZFill(number, 5))
    ensures market == "HK" ==> HAStock.DottedCode(number + "." + market) == "hk" + number
    ensures market == "HK" && |number| < 5 ==>
              ParseCode(number + "." + market) != Some(HAStock.DottedCode(number + "." + market))
  {
    assert ToLower("SH") == "sh" && ToLower("SZ") == "sz" && ToLower("HK") == "hk";
    assert !IsSpace(number[0]);
    ParseCodeDotted(number, market);
    HAStock.DottedCodeConverts(number, market);
    if market == "HK" && |number| < 5 {
      assert |"hk" + ZFill(number, 5)| != |"hk" + number|;
    }
  }

  // ---------------------------------------------------------------------------
  // get_tencent_hk_price

  /** The real-time request code: "r_" before a code that already starts with 'hk', else
      "r_hk" before the code zero-padded to five digits. */
  function RealTimeCode(code: string): string {
    if "hk" <= code then "r_" + code else "r_hk" + ZFill(code, 5)
  }

  /** The key a Hong Kong code's answer comes back under. */
  function HkForm(code: string): string {
    if "hk" <= code then code else "hk" + ZFill(code, 5)
  }

  /** Every request code is "r_" before the code's 'hk' form, which always starts with 'hk'
      and is its own 'hk' form. */
  lemma RealTimeCodeForm(code: string)
    ensures RealTimeCode(code) == "r_" + HkForm(code)
    ensures "hk" <= HkForm(code) && HkForm(HkForm(code)) == HkForm(code)
    ensures "hk" <= code ==> HkForm(code) == code
  {
  }

  /** The real-time codes, one per input code, in order. */
  function RealTimeCodes(codes: seq<string>): (r: seq<string>)
    ensures |r| == |codes|
  {
    if |codes| == 0 then [] else RealTimeCodes(codes[..|codes| - 1]) + [RealTimeCode(codes[|codes| - 1])]
  }

  /** The code-building loop of get_tencent_hk_price. */
  method BuildRealTimeCodes(codes: seq<string>) returns (realTimeCodes: seq<string>)
    ensures realTimeCodes == RealTimeCodes(codes)
    ensures forall i :: 0 <= i < |codes| ==> realTimeCodes[i] == "r_" + HkForm(codes[i])
  {
    realTimeCodes := [];
    for i := 0 to |codes|
      invariant realTimeCodes == RealTimeCodes(codes[..i])
    {
      var code := codes[i];
      assert codes[..i + 1][..i] == codes[..i];
      if "hk" <= code {
        realTimeCodes := realTimeCodes + ["r_" + code];
      } else {
        realTimeCodes := realTimeCodes + ["r_hk" + ZFill(code, 5)];
      }
    }
    assert codes[..|codes|] == codes;
    RealTimeCodesForm(codes);
  }

  /** Each real-time code is "r_" before the 'hk' form of the code at the same place. */
  lemma {:induction false} RealTimeCodesForm(codes: seq<string>)
    ensures forall i :: 0 <= i < |codes| ==> RealTimeCodes(codes)[i] == "r_" + HkForm(codes[i])
    decreases |codes|
  {
    if |codes| > 0 {
      var init := codes[..|codes| - 1];
      var last := codes[|codes| - 1];
      RealTimeCodesForm(init);
      RealTimeCodeForm(last);
      var r := RealTimeCodes(codes);
      assert r == RealTimeCodes(init) + [RealTimeCode(last)];
      forall i | 0 <= i < |codes| ensures r[i] == "r_" + HkForm(codes[i]) {
        if i < |init| {
          assert r[i] == RealTimeCodes(init)[i] && codes[i] == init[i];
        } else {
          assert r[i] == RealTimeCode(last) && codes[i] == last;
        }
      }
    }
  }

  /** The change and the percentage change: computed only from a positive previous close,
      both 0 otherwise. */
  function Changes(current: real, previous: real): (r: (real, real))
    ensures previous > 0.0 ==> r.0 + previous == current && r.1 * previous == r.0 * 100.0
    ensures previous <= 0.0 ==> r == (0.0, 0.0)
  {
    if previous > 0.0 then
      var change := current - previous;
      (change, change / previous * 100.0)
    else (0.0, 0.0)
  }

  /** The slash date made dashed, month and day padded to two digits; any other date as is. */
  function DashedDate(date: string): string {
    if '/' in date && |Split(date, '/')| == 3 then
      var c := Split(date, '/');
      c[0] + "-" + ZFill(c[1], 2) + "-" + ZFill(c[2], 2)
    else date
  }

  /** The date and time of field 30 ("2025/01/24 16:08:08"): without a space, or unless
      it splits into exactly two parts on spaces, the current date and time; otherwise the
      date dashed and the time, which is replaced by the current time unless it has three
      colon-separated parts. */
  function DateTime(env: PyEnv, text: string): (string, string) {
    if text != "" && ' ' in text then
      var pieces := Split(text, ' ');
      if |pieces| != 2 then (env.nowDate, env.nowTime)
      else
        var timePart := pieces[1];
        (DashedDate(pieces[0]),
         if ':' !in timePart || |Split(timePart, ':')| != 3 then env.nowTime else timePart)
    else (env.nowDate, env.nowTime)
  }

  /** A date and a time joined by one space are treated apart: the date dashed, the time
      kept when it has three colon-separated parts and replaced by the current time
      otherwise. */
  lemma DateTimeOfPair(env: PyEnv, date: string, time: string)
    requires ' ' !in date && ' ' !in time
    ensures DateTime(env, date + " " + time)
            == (DashedDate(date), if |Split(time, ':')| == 3 then time else env.nowTime)
  {
    assert date + " " + time == date + [' '] + time;
    assert (date + [' '] + time)[|date|] == ' ';
    SplitTwo(date, time, ' ');
    if ':' !in time {
      SplitNoSeparator(time, ':');
    }
  }

  /** "Y/M/D" becomes "Y-MM-DD". */
  lemma DashedSlashDate(y: string, m: string, d: string)
    requires '/' !in y && '/' !in m && '/' !in d
    ensures DashedDate(y + "/" + m + "/" + d) == y + "-" + ZFill(m, 2) + "-" + ZFill(d, 2)
  {
    var date := y + "/" + m + "/" + d;
    assert date == y + ['/'] + m + ['/'] + d;
    assert date[|y|] == '/';
    SplitThree(y, m, d, '/');
  }

  /** A slash date and a three-part time come back as the dashed, padded date and the time
      unchanged. */
  lemma DateTimeSlashed(env: PyEnv, y: string, m: string, d: string, hh: string, mm: string, ss: string)
    requires ' ' !in y && ' ' !in m && ' ' !in d && ' ' !in hh && ' ' !in mm && ' ' !in ss
    requires '/' !in y && '/' !in m && '/' !in d
    requires ':' !in hh && ':' !in mm && ':' !in ss
    ensures DateTime(env, y + "/" + m + "/" + d + " " + hh + ":" + mm + ":" + ss)
            == (y + "-" + ZFill(m, 2) + "-" + ZFill(d, 2), hh + ":" + mm + ":" + ss)
  {
    var date := y + "/" + m + "/" + d;
    var time := hh + ":" + mm + ":" + ss;
    assert ' ' !in date && ' ' !in time;
    assert y + "/" + m + "/" + d + " " + hh + ":" + mm + ":" + ss == date + " " + time;
    DateTimeOfPair(env, date, time);
    DashedSlashDate(y, m, d);
    assert time == hh + [':'] + mm + [':'] + ss;
    SplitThree(hh, mm, ss, ':');
  }

  /** A date and a time whose time lacks three colon-separated parts keep the date and take
      the current time; text without a space takes the current date and time. */
  lemma DateTimeFallbacks(env: PyEnv, date: string, time: string, text: string)
    requires ' ' !in date && ' ' !in time && |Split(time, ':')| != 3
    ensures DateTime(env, date + " " + time) == (DashedDate(date), env.nowTime)
    ensures ' ' !in text ==> DateTime(env, text) == (env.nowDate, env.nowTime)
  {
    DateTimeOfPair(env, date, time);
  }

  /** The fields of an accepted Tencent line (at least 35 of them): None when float() or
      int() raises on one of them. */
  function HkPrice(env: PyEnv, parts: seq<string>): Option<Price>
    requires |parts| >= 35
  {
    var current := FloatOrZero(env.num, parts[3]);
    var previous := FloatOrZero(env.num, parts[4]);
    var open := FloatOrZero(env.num, parts[5]);
    var high := FloatOrZero(env.num, parts[33]);
    var low := FloatOrZero(env.num, parts[34]);
    var volume := IntOfFloatOrZero(env.num, parts[6]);
    if current.None? || previous.None? || open.None? || high.None? || low.None? || volume.None? then None
    else
      var (date, time) := DateTime(env, parts[30]);
      var (change, changePercent) := Changes(current.value, previous.value);
      Some(Price(parts[1], current.value, previous.value, open.value, high.value, low.value,
                 volume.value, date, time, change, changePercent))
  }

  /** One Tencent line: kept only when it holds '~', starts with 'v_r_', has at least 35
      '~'-separated parts and parses; its key is the text before '=' without 'v_r_'. */
  function HkEntry(env: PyEnv, line: string): Option<(string, Price)> {
    if '~' in line && "v_r_" <= line then
      var parts := Split(line, '~');
      if |parts| >= 35 then
        match HkPrice(env, parts)
        case None => None
        case Some(p) => Some((KeyOf(line, "v_r_"), p))
      else None
    else None
  }

  function HkEntryOf(env: PyEnv): string -> Option<(string, Price)> {
    line => HkEntry(env, line)
  }

  /** get_tencent_hk_price, as a function. */
  function HkPrices(env: PyEnv, hkCodes: seq<string>): map<string, Price> {
    if |hkCodes| == 0 then map[]
    else
      match env.get(Tencent.BaseUrl + Join(RealTimeCodes(hkCodes), ','))
      case None => map[]
      case Some(text) => Gather(HkEntryOf(env), Lines(text))
  }

  /** get_tencent_hk_price: one request for all codes, then one dict entry per accepted line. */
  method GetTencentHkPrice(env: PyEnv, hkCodes: seq<string>) returns (results: map<string, Price>)
    ensures results == HkPrices(env, hkCodes)
  {
    if |hkCodes| == 0 {
      return map[];
    }
    var realTimeCodes := BuildRealTimeCodes(hkCodes);
    var response := env.get(Tencent.BaseUrl + Join(realTimeCodes, ','));
    if response.None? {
      return map[];
    }
    var lines := Lines(response.value);
    results := map[];
    for i := 0 to |lines|
      invariant results == Gather(HkEntryOf(env), lines[..i])
    {
      var line := lines[i];
      assert lines[..i + 1][..i] == lines[..i];
      if '~' in line && "v_r_" <= line {
        var parts := Split(line, '~');
        if |parts| >= 35 {
          var codePart := KeyOf(line, "v_r_");
          var price := HkPrice(env, parts);
          if price.Some? {
            results := results[codePart := price.value];
          }
        }
      }
    }
    assert lines[..|lines|] == lines;
  }

  /** The parts of a Tencent line: the head glued to the first field, the tail to the last. */
  lemma HkLineParts(code: string, fields: seq<string>)
    requires '~' !in code && |fields| >= 2
    requires forall i :: 0 <= i < |fields| ==> '~' !in fields[i]
    ensures Split(Tencent.Line(code, fields), '~')
            == fields[0 := Tencent.LineHead(code) + "\"" + fields[0]][|fields| - 1 := fields[|fields| - 1] + "\";"]
  {
    var head := Tencent.LineHead(code) + "\"";
    var tail := "\";";
    var q1 := fields[0 := head + fields[0]];
    var q2 := q1[|fields| - 1 := q1[|fields| - 1] + tail];
    JoinPrefixFirst(fields, '~', head);
    JoinSuffixLast(q1, '~', tail);
    assert Tencent.Line(code, fields) == head + Join(fields, '~') + tail;
    assert '~' !in head;
    assert forall i :: 0 <= i < |q2| ==> '~' !in q2[i];
    SplitJoin(q2, '~');
  }

  /** The vendor's answer line for a requested code, with at least 36 '~'-free fields, is
      kept under the code's 'hk' form with the price its fields describe (or dropped when a
      field does not parse). */
  lemma HkLineRoundTrip(env: PyEnv, code: string, fields: seq<string>)
    requires '=' !in HkForm(code) && '_' !in HkForm(code) && '~' !in HkForm(code)
    requires |fields| >= 36
    requires forall i :: 0 <= i < |fields| ==> '~' !in fields[i]
    ensures HkEntry(env, Tencent.Line(RealTimeCode(code), fields))
            == if HkPrice(env, fields).Some? then Some((HkForm(code), HkPrice(env, fields).value)) else None
  {
    RealTimeCodeForm(code);
    var c := HkForm(code);
    var line := Tencent.Line(RealTimeCode(code), fields);
    HkLineParts(RealTimeCode(code), fields);
    var parts := Split(line, '~');
    assert parts[1..35] == fields[1..35];
    assert line == "v_r_" + c + "=" + ("\"" + Join(fields, '~') + "\";");
    KeyOfMarkedLine("v_r_", c, "\"" + Join(fields, '~') + "\";", '_');
    assert line[|Tencent.LineHead(RealTimeCode(code)) + "\"" + fields[0]|] == '~' by {
      JoinPrefixFirst(fields, '~', Tencent.LineHead(RealTimeCode(code)) + "\"");
    }
  }

  // ---------------------------------------------------------------------------
  // get_sina_stock_price

  /** The fields of a Sina A-share line (at least 32 of them): None when float() or int()
      raises on one of them. */
  function APrice(num: NumParsers, parts: seq<string>): Option<Price>
    requires |parts| >= 32
  {
    var current := FloatOrZero(num, parts[3]);
    var previous := FloatOrZero(num, parts[2]);
    var open := FloatOrZero(num, parts[1]);
    var high := FloatOrZero(num, parts[4]);
    var low := FloatOrZero(num, parts[5]);
    var volume := IntOrZero(num, parts[8]);
    if current.None? || previous.None? || open.None? || high.None? || low.None? || volume.None? then None
    else
      var (change, changePercent) := Changes(current.value, previous.value);
      Some(Price(parts[0], current.value, previous.value, open.value, high.value, low.value,
                 volume.value, parts[30], parts[31], change, changePercent))
  }

  /** One Sina line: kept only when it holds '=' and '"', its first quoted segment is not
      empty, has at least 32 comma-separated fields and parses; its key is the text before
      '=' without 'var hq_str_'. */
  function AEntry(num: NumParsers, line: string): Option<(string, Price)> {
    if '=' in line && '"' in line then
      var data := Quoted(line);
      if data == "" then None
      else
        var parts := Split(data, ',');
        if |parts| < 32 then None
        else
          match APrice(num, parts)
          case None => None
          case Some(p) => Some((KeyOf(line, "var hq_str_"), p))
    else None
  }

  function AEntryOf(num: NumParsers): string -> Option<(string, Price)> {
    line => AEntry(num, line)
  }

  /** get_sina_stock_price, as a function: Hong Kong codes are dropped before the request. */
  function SinaPrices(env: PyEnv, codes: seq<string>): map<string, Price> {
    if |codes| == 0 then map[]
    else
      var aCodes := Filter(codes, false);
      if |aCodes| == 0 then map[]
      else
        match env.get(Sina.BaseUrl + Join(aCodes, ','))
        case None => map[]
        case Some(text) => Gather(AEntryOf(env.num), Lines(text))
  }

  /** get_sina_stock_price: one request for the A-share codes, one entry per accepted line. */
  method GetSinaStockPrice(env: PyEnv, codes: seq<string>) returns (results: map<string, Price>)
    ensures results == SinaPrices(env, codes)
  {
    if |codes| == 0 {
      return map[];
    }
    var aCodes := Filter(codes, false);
    if |aCodes| == 0 {
      return map[];
    }
    var response := env.get(Sina.BaseUrl + Join(aCodes, ','));
    if response.None? {
      return map[];
    }
    results := CollectSinaLines(env.num, Lines(response.value));
  }

  /** The line loop of get_sina_stock_price. */
  method CollectSinaLines(num: NumParsers, lines: seq<string>) returns (results: map<string, Price>)
    ensures results == Gather(AEntryOf(num), lines)
  {
    results := map[];
    for i := 0 to |lines|
      invariant results == Gather(AEntryOf(num), lines[..i])
    {
      var line := lines[i];
      assert lines[..i + 1][..i] == lines[..i];
      if '=' in line && '"' in line {
        var code := KeyOf(line, "var hq_str_");
        var dataStr := Quoted(line);
        if dataStr != "" {
          var dataParts := Split(dataStr, ',');
          if |dataParts| >= 32 {
            var price := APrice(num, dataParts);
            if price.Some? {
              results := results[code := price.value];
            }
          }
        }
      }
    }
    assert lines[..|lines|] == lines;
  }

  /** The key of a Sina answer line is its code. */
  lemma SinaLineKey(code: string, fields: seq<string>)
    requires '=' !in code && '_' !in code
    ensures '=' in Sina.Line(code, fields)
    ensures KeyOf(Sina.Line(code, fields), "var hq_str_") == code
  {
    var rest := "\"" + Join(fields, ',') + "\";";
    assert Sina.Line(code, fields) == "var hq_str_" + code + "=" + rest;
    assert ("var hq_str_" + code + "=" + rest)[|"var hq_str_" + code|] == '=';
    KeyOfMarkedLine("var hq_str_", code, rest, '_');
  }

  /** A Sina answer line is its head, the quoted fields, and the closing semicolon. */
  lemma SinaLineShape(code: string, fields: seq<string>)
    ensures Sina.Line(code, fields) == ("var hq_str_" + code + "=") + ['"'] + Join(fields, ',') + ['"'] + ";"
  {
    assert Sina.LinePrefix(code) == ("var hq_str_" + code + "=") + ['"'];
    assert Sina.LineSuffix == ['"'] + ";";
  }

  /** The head of a Sina answer line holds no double quote when its code holds none. */
  lemma SinaHeadUnquoted(code: string)
    requires '"' !in code
    ensures '"' !in "var hq_str_" + code + "="
  {
  }

  /** The first quoted segment of a Sina answer line is its joined fields. */
  lemma SinaLineQuoted(code: string, fields: seq<string>)
    requires '"' !in code
    requires forall i :: 0 <= i < |fields| ==> '"' !in fields[i]
    ensures '"' in Sina.Line(code, fields)
    ensures Quoted(Sina.Line(code, fields)) == Join(fields, ',')
  {
    SinaLineShape(code, fields);
    JoinNoSeparator(fields, ',', '"');
    SinaHeadUnquoted(code);
    QuotedSegment("var hq_str_" + code + "=", Join(fields, ','), ";");
  }

  /** The key, the quoted payload and the fields of a Sina answer line with two or more
      fields free of ',' and '"'. */
  lemma SinaLineParts(code: string, fields: seq<string>)
    requires '=' !in code && '"' !in code && '_' !in code
    requires |fields| >= 2
    requires forall i :: 0 <= i < |fields| ==> ',' !in fields[i] && '"' !in fields[i]
    ensures '=' in Sina.Line(code, fields) && '"' in Sina.Line(code, fields)
    ensures KeyOf(Sina.Line(code, fields), "var hq_str_") == code
    ensures Quoted(Sina.Line(code, fields)) == Join(fields, ',')
    ensures Join(fields, ',') != "" && Split(Join(fields, ','), ',') == fields
  {
    SinaLineKey(code, fields);
    SinaLineQuoted(code, fields);
    assert Join(fields, ',') == fields[0] + [','] + Join(fields[1..], ',');
    SplitJoin(fields, ',');
  }

  /** The Sina line for a code, with at least 32 fields free of ',' and '"', is kept under
      that code with the price its fields describe (or dropped when a field does not parse). */
  lemma ALineRoundTrip(num: NumParsers, code: string, fields: seq<string>)
    requires '=' !in code && '"' !in code && '_' !in code
    requires |fields| >= 32
    requires forall i :: 0 <= i < |fields| ==> ',' !in fields[i] && '"' !in fields[i]
    ensures AEntry(num, Sina.Line(code, fields))
            == if APrice(num, fields).Some? then Some((code, APrice(num, fields).value)) else None
  {
    SinaLineParts(code, fields);
  }

  /** Against the Go Sina crawler reading the same fields with the same number syntax (under
      which empty text is not a number): the same name and price, and the same change and
      percentage whenever the previous close is positive. For a previous close that is not
      positive the legacy change is 0 while the Go crawler reports the difference. */
  lemma AgainstGoSina(goEnv: Env, num: NumParsers, fields: seq<string>, code: string)
    requires goEnv.num == num && num.float("").None? && num.integer("").None?
    requires |fields| >= 32 && APrice(num, fields).Some?
    ensures var p := APrice(num, fields).value;
            var q := Sina.QuoteOf(goEnv, fields, code);
            p.name == q.name && p.currentPrice == q.price && p.volume == q.volume
            && (p.yesterdayClose > 0.0 ==> p.change == q.changeValue && p.changePercent == q.change)
            && (p.yesterdayClose <= 0.0 ==> p.change == 0.0 && q.changeValue == p.currentPrice - p.yesterdayClose)
  {
  }

  // ---------------------------------------------------------------------------
  // get_mixed_stock_price

  /** get_mixed_stock_price, as a function: A shares from Sina, then Hong Kong shares from
      Tencent merged over them. */
  function MixedPrices(env: PyEnv, codes: seq<string>): map<string, Price> {
    if |codes| == 0 then map[]
    else
      var aCodes := Filter(codes, false);
      var hkCodes := Filter(codes, true);
      (if |aCodes| > 0 then SinaPrices(env, aCodes) else map[])
        + (if |hkCodes| > 0 then HkPrices(env, hkCodes) else map[])
  }

  /** get_mixed_stock_price: split on the 'hk' prefix, fetch each non-empty side, and merge
      the Tencent results over the Sina ones. */
  method GetMixedStockPrice(env: PyEnv, codes: seq<string>) returns (results: map<string, Price>)
    ensures results == MixedPrices(env, codes)
  {
    if |codes| == 0 {
      return map[];
    }
    var aStockCodes := Filter(codes, false);
    var hkStockCodes := Filter(codes, true);
    results := map[];
    if |aStockCodes| > 0 {
      var aResults := GetSinaStockPrice(env, aStockCodes);
      assert map[] + aResults == aResults;
      results := results + aResults;
    }
    ghost var sinaSide := results;
    if |hkStockCodes| > 0 {
      var hkResults := GetTencentHkPrice(env, hkStockCodes);
      results := results + hkResults;
    } else {
      assert results + map[] == results;
    }
    assert results == sinaSide + (if |hkStockCodes| > 0 then HkPrices(env, hkStockCodes) else map[]);
  }

  /** The merge holds exactly the keys of both sides; a key both sides report takes the
      Tencent value. Sina is asked for exactly the codes without the 'hk' prefix (its own
      filter removes nothing more), and Tencent for each 'hk' code as "r_" before it. */
  lemma MixedMerge(env: PyEnv, codes: seq<string>)
    ensures var a := SinaPrices(env, Filter(codes, false));
            var h := HkPrices(env, Filter(codes, true));
            var r := MixedPrices(env, codes);
            r.Keys == a.Keys + h.Keys
            && (forall k :: k in h ==> r[k] == h[k])
            && (forall k :: k in a && k !in h ==> r[k] == a[k])
    ensures Filter(Filter(codes, false), false) == Filter(codes, false)
    ensures forall x :: x in Filter(codes, true) ==> RealTimeCode(x) == "r_" + x
  {
    FilterTwice(codes, false);
    FilterPartition(codes);
  }
}
