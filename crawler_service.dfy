/** The application-level crawler service (CrawlerService): it parses and converts a code,
    chooses the vendor from the parsed region, and hands the converted code to the crawler
    manager. The converter it holds is stateless, so only the manager is a parameter. */
module CrawlerService {
  import opened Wrappers
  import opened Text
  import opened Quotes
  import opened StockConverter
  import opened CrawlerManager

  /** selectSource: Hong Kong goes to Tencent, Shanghai and Shenzhen to Sina, and every
      other region to Sina as well. */
  function SelectSource(region: string): string {
    if region == "hk" then "tencent"
    else if region == "sh" || region == "sz" then "sina"
    else "sina"
  }

  /** The selected source is always one the converter and the default registry know. */
  lemma SelectSourceKnown(region: string)
    ensures SelectSource(region) in Converters && SelectSource(region) in DefaultCrawlers
    ensures SelectSource(region) == "tencent" <==> region == "hk"
  {
  }

  /** A code of a known region converts under the source selected for it to its own
      lower-cased form, and the manager's prefix routing picks that same source for the
      converted code. */
  lemma SelectThenConvert(code: string)
    requires ParseStockCode(code).Ok? && ParseStockCode(code).value.region in KnownRegions
    ensures ConvertForSource(code, SelectSource(ParseStockCode(code).value.region)) == Ok(ToLower(code))
    ensures Route(ToLower(code)) == SelectSource(ParseStockCode(code).value.region)
  {
    var sc := ParseStockCode(code).value;
    assert |sc.region| == 2;
    assert ToLower(code)[..2] == sc.region by {
      assert ToLower(code) == sc.region + sc.number;
    }
  }

  /** GetStockData (`realTime` false) and GetStockDataRealTime: parse, select, convert, fetch. */
  function StockData(m: Manager, env: Env, code: string, realTime: bool): Result<Quote, Error>
    reads m
  {
    match ParseStockCode(code)
    case Err(e) => Err(InvalidCode(e))
    case Ok(sc) =>
      var source := SelectSource(sc.region);
      match ConvertForSource(code, source)
      case Err(e) => Err(ConvertFailed(e))
      case Ok(converted) => m.FromSource(env, converted, source, realTime)
  }

  /** A code that does not parse, or whose region has no conversion, is rejected before any
      fetch (the outcome does not depend on the environment); any other code is fetched, as
      its lower-cased form, from the crawler the manager's own routing would choose. */
  lemma StockDataCases(m: Manager, env: Env, code: string, realTime: bool)
    ensures ParseStockCode(code).Err? ==> StockData(m, env, code, realTime) == Err(InvalidCode(InvalidCodeFormat(code)))
    ensures ParseStockCode(code).Ok? && ParseStockCode(code).value.region !in KnownRegions ==>
              StockData(m, env, code, realTime)
              == Err(ConvertFailed(UnsupportedRegion(ParseStockCode(code).value.region)))
    ensures ParseStockCode(code).Ok? && ParseStockCode(code).value.region in KnownRegions ==>
              StockData(m, env, code, realTime) == m.StockData(env, ToLower(code), realTime)
  {
    if ParseStockCode(code).Ok? {
      var sc := ParseStockCode(code).value;
      SelectSourceKnown(sc.region);
      if sc.region in KnownRegions {
        SelectThenConvert(code);
      }
    }
  }

  /** GetStockDataFromSource (and its RealTime form): convert under the caller's source, with
      no source selection of its own. */
  function StockDataFromSource(m: Manager, env: Env, code: string, source: string, realTime: bool)
    : Result<Quote, Error>
    reads m
  {
    match ConvertForSource(code, source)
    case Err(e) => Err(ConvertFailed(e))
    case Ok(converted) => m.FromSource(env, converted, source, realTime)
  }

  /** An unknown source is a conversion error for any well-formed code, and a known one
      fetches the lower-cased code when its region is known. */
  lemma StockDataFromSourceCases(m: Manager, env: Env, code: string, source: string, realTime: bool)
    ensures ParseStockCode(code).Err? ==>
              StockDataFromSource(m, env, code, source, realTime) == Err(ConvertFailed(InvalidCodeFormat(code)))
    ensures ParseStockCode(code).Ok? && source !in Converters ==>
              StockDataFromSource(m, env, code, source, realTime) == Err(ConvertFailed(UnsupportedSource(source)))
    ensures ParseStockCode(code).Ok? && source in Converters && ParseStockCode(code).value.region in KnownRegions ==>
              StockDataFromSource(m, env, code, source, realTime) == m.FromSource(env, ToLower(code), source, realTime)
  {
  }

  // ---------------------------------------------------------------------------
  // Batches

  /** The converted form of one batch code, or None when it is skipped. */
  function Converted(code: string): Option<string> {
    match ParseStockCode(code)
    case Err(_) => None
    case Ok(sc) =>
      match ConvertForSource(code, SelectSource(sc.region))
      case Err(_) => None
      case Ok(converted) => Some(converted)
  }

  /** A code is kept exactly when it parses with a known region, and then as its lower-cased
      form, which the manager groups with the source selected for it. */
  lemma ConvertedCases(code: string)
    ensures Converted(code).Some? <==> ParseStockCode(code).Ok? && ParseStockCode(code).value.region in KnownRegions
    ensures Converted(code).Some? ==> Converted(code).value == ToLower(code)
    ensures Converted(code).Some? ==>
              GroupOf(ToLower(code)) == Some(SelectSource(ParseStockCode(code).value.region))
  {
    if ParseStockCode(code).Ok? {
      var sc := ParseStockCode(code).value;
      SelectSourceKnown(sc.region);
      if sc.region in KnownRegions {
        SelectThenConvert(code);
        RouteCases(ToLower(code));
      }
    }
  }

  /** The converted codes of a batch, in input order, skipping the ones that fail. */
  function ConvertedCodes(codes: seq<string>): (r: seq<string>)
    ensures |r| <= |codes|
  {
    if |codes| == 0 then []
    else
      var last := codes[|codes| - 1];
      ConvertedCodes(codes[..|codes| - 1]) + (if Converted(last).Some? then [Converted(last).value] else [])
  }

  /** Conversion of a batch keeps the input order: it distributes over concatenation. */
  lemma {:induction false} ConvertedCodesConcat(a: seq<string>, b: seq<string>)
    ensures ConvertedCodes(a + b) == ConvertedCodes(a) + ConvertedCodes(b)
    decreases |b|
  {
    if |b| > 0 {
      var init := b[..|b| - 1];
      assert (a + b)[..|a + b| - 1] == a + init;
      assert (a + b)[|a + b| - 1] == b[|b| - 1];
      ConvertedCodesConcat(a, init);
    } else {
      assert a + b == a;
    }
  }

  /** Every forwarded code is the lower-cased form of an input code of a known region. */
  lemma {:induction false} ConvertedCodesMembers(codes: seq<string>, x: string)
    requires x in ConvertedCodes(codes)
    ensures exists i :: 0 <= i < |codes| && Converted(codes[i]) == Some(x) && x == ToLower(codes[i])
    decreases |codes|
  {
    var init := codes[..|codes| - 1];
    var last := codes[|codes| - 1];
    if x in ConvertedCodes(init) {
      ConvertedCodesMembers(init, x);
      var i :| 0 <= i < |init| && Converted(init[i]) == Some(x) && x == ToLower(init[i]);
      assert codes[i] == init[i];
    } else {
      ConvertedCases(last);
      assert Converted(codes[|codes| - 1]) == Some(x);
    }
  }

  /** The conversion loop of GetMultipleStockData: a code that does not parse or does not
      convert is skipped, every other one is appended in its converted form. */
  method ConvertCodes(codes: seq<string>) returns (convertedCodes: seq<string>)
    ensures convertedCodes == ConvertedCodes(codes)
  {
    convertedCodes := [];
    for i := 0 to |codes|
      invariant convertedCodes == ConvertedCodes(codes[..i])
    {
      var code := codes[i];
      assert codes[..i + 1][..i] == codes[..i];
      var stockCode := ParseStockCode(code);
      if stockCode.Err? {
        continue;
      }
      var source := SelectSource(stockCode.value.region);
      var convertedCode := ConvertForSource(code, source);
      if convertedCode.Err? {
        continue;
      }
      convertedCodes := convertedCodes + [convertedCode.value];
    }
    assert codes[..|codes|] == codes;
  }

  /** GetMultipleStockData (`realTime` false) and GetMultipleStockDataRealTime: convert the
      codes, then one manager batch call on the ones that survive. */
  method GetMultipleStockData(m: Manager, env: Env, codes: seq<string>, realTime: bool) returns (results: seq<Quote>)
    ensures results == m.BatchResult(env, ConvertedCodes(codes), realTime)
  {
    var convertedCodes := ConvertCodes(codes);
    results := m.GetMultipleStockData(env, convertedCodes, realTime);
  }
}
