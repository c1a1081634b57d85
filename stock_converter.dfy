/** Stock-code parsing and per-vendor conversion (StockCodeConverter), and the in-place
    normalisation of a crawler input record (CrawlerInput.Normalize). The per-vendor
    format tags that the source reads by reflection are an explicit table here. */
module StockConverter {
  import opened Wrappers
  import opened Text
  import opened Quotes

  /** A parsed code: the lower-case letter prefix and the digit suffix. */
  datatype StockCode = StockCode(region: string, number: string)

  /** `s` is one or more ASCII letters followed by one or more ASCII digits. */
  ghost predicate IsCodeShape(s: string) {
    exists k :: 0 < k < |s| && AllLetters(s[..k]) && AllDigits(s[k..])
  }

  /** The length of the longest all-letter prefix of `s`. */
  function LetterRun(s: string): (k: nat)
    ensures k <= |s| && AllLetters(s[..k])
    ensures k < |s| ==> !IsAsciiLetter(s[k])
    decreases |s|
  {
    if |s| > 0 && IsAsciiLetter(s[0]) then
      var k := 1 + LetterRun(s[1..]);
      assert s[..k] == [s[0]] + s[1..][..k - 1];
      k
    else 0
  }

  /** The letter run ends at the first non-letter after a run of letters. */
  lemma {:induction false} LetterRunEndsAt(s: string, j: nat)
    requires j <= |s| && AllLetters(s[..j])
    requires j < |s| ==> !IsAsciiLetter(s[j])
    ensures LetterRun(s) == j
    decreases j
  {
    if j > 0 {
      assert s[..j][0] == s[0];
      assert s[1..][..j - 1] == s[..j][1..];
      assert j - 1 < |s| - 1 ==> s[1..][j - 1] == s[j];
      LetterRunEndsAt(s[1..], j - 1);
    }
  }

  /** The letter/digit split of a well-shaped code is where the letters end. */
  lemma LetterRunShape(s: string)
    ensures IsCodeShape(s) <==> (0 < LetterRun(s) < |s| && AllDigits(s[LetterRun(s)..]))
  {
    if IsCodeShape(s) {
      var j :| 0 < j < |s| && AllLetters(s[..j]) && AllDigits(s[j..]);
      assert s[j..][0] == s[j];
      LetterRunEndsAt(s, j);
    } else if 0 < LetterRun(s) < |s| && AllDigits(s[LetterRun(s)..]) {
      assert AllLetters(s[..LetterRun(s)]);
    }
  }

  /** ParseStockCode: match `^([a-zA-Z]+)(\d+)$` against the lower-cased code. */
  function ParseStockCode(code: string): (r: Result<StockCode, Error>)
    ensures r.Ok? <==> IsCodeShape(ToLower(code))
    ensures r.Ok? ==> r.value.region + r.value.number == ToLower(code)
    ensures r.Ok? ==> |r.value.region| > 0 && AllLetters(r.value.region)
    ensures r.Ok? ==> |r.value.number| > 0 && AllDigits(r.value.number)
    ensures r.Err? ==> r.error == InvalidCodeFormat(code)
  {
    var s := ToLower(code);
    var k := LetterRun(s);
    LetterRunShape(s);
    if 0 < k < |s| && AllDigits(s[k..]) then
      assert s[..k] + s[k..] == s;
      Ok(StockCode(s[..k], s[k..]))
    else
      Err(InvalidCodeFormat(code))
  }

  /** IsValidStockCode: the code parses. */
  function IsValidStockCode(code: string): (valid: bool)
    ensures valid <==> IsCodeShape(ToLower(code))
  {
    ParseStockCode(code).Ok?
  }

  // ---------------------------------------------------------------------------
  // Vendor conversion table

  /** One field of a vendor's converter struct: its name and the text before `%s` in its
      `format` tag (None when the tag is absent). */
  datatype FormatField = FormatField(name: string, format: Option<string>)

  /** SinaConverter: HK `hk%s`, SH `sh%s`, SZ `sz%s`, in declaration order. */
  const SinaFormats: seq<FormatField> :=
    [FormatField("HK", Some("hk")), FormatField("SH", Some("sh")), FormatField("SZ", Some("sz"))]

  /** TencentConverter: the same three fields and tags. */
  const TencentFormats: seq<FormatField> :=
    [FormatField("HK", Some("hk")), FormatField("SH", Some("sh")), FormatField("SZ", Some("sz"))]

  /** The converters map built by NewStockCodeConverter. */
  const Converters: map<string, seq<FormatField>> :=
    map["sina" := SinaFormats, "tencent" := TencentFormats]

  /** The regions both vendors' tables know. */
  const KnownRegions: seq<string> := ["hk", "sh", "sz"]

  /** Both tables name, lower-cased, exactly hk, sh and sz, each with a tag equal to it. */
  lemma FormatTables(source: string)
    requires source in Converters
    ensures |Converters[source]| == 3
    ensures forall i :: 0 <= i < 3 ==> ToLower(Converters[source][i].name) == KnownRegions[i]
    ensures forall i :: 0 <= i < 3 ==> Converters[source][i].format == Some(KnownRegions[i])
  {
    assert ToLower("HK") == "hk";
    assert ToLower("SH") == "sh";
    assert ToLower("SZ") == "sz";
  }

  /** The first field whose lower-cased name equals `region`. */
  function FindField(fields: seq<FormatField>, region: string): (r: Option<nat>)
    ensures r.Some? ==> r.value < |fields| && ToLower(fields[r.value].name) == region
    ensures r.Some? ==> forall j :: 0 <= j < r.value ==> ToLower(fields[j].name) != region
    ensures r.None? ==> forall j :: 0 <= j < |fields| ==> ToLower(fields[j].name) != region
  {
    if |fields| == 0 then None
    else if ToLower(fields[0].name) == region then Some(0)
    else match FindField(fields[1..], region)
      case None => None
      case Some(k) => Some(k + 1)
  }

  /** The conversion one table prescribes for a parsed code. */
  function ConvertWithTable(sc: StockCode, fields: seq<FormatField>): Result<string, Error>
  {
    match FindField(fields, sc.region)
    case None => Err(UnsupportedRegion(sc.region))
    case Some(i) =>
      match fields[i].format
      case None => Err(NoFormatForRegion(sc.region))
      case Some(prefix) => Ok(prefix + sc.number)
  }

  /** convertUsingReflection: scan the fields in order; the first one named like the region
      decides (its tag, or an error when it has none); no such field is an error. */
  method ConvertUsingTable(sc: StockCode, fields: seq<FormatField>) returns (r: Result<string, Error>)
    ensures r == ConvertWithTable(sc, fields)
  {
    for i := 0 to |fields|
      invariant forall j :: 0 <= j < i ==> ToLower(fields[j].name) != sc.region
    {
      if ToLower(fields[i].name) == sc.region {
        match fields[i].format {
          case None => return Err(NoFormatForRegion(sc.region));
          case Some(prefix) => return Ok(prefix + sc.number);
        }
      }
    }
    return Err(UnsupportedRegion(sc.region));
  }

  /** ConvertForSource: parse, look up the source's table, convert. */
  function ConvertForSource(code: string, source: string): (r: Result<string, Error>)
    ensures ParseStockCode(code).Err? ==> r == Err(InvalidCodeFormat(code))
    ensures ParseStockCode(code).Ok? && source !in Converters ==> r == Err(UnsupportedSource(source))
    ensures ParseStockCode(code).Ok? && source in Converters ==>
              var region := ParseStockCode(code).value.region;
              if region in KnownRegions then r == Ok(ToLower(code))
              else r == Err(UnsupportedRegion(region))
  {
    match ParseStockCode(code)
    case Err(e) => Err(e)
    case Ok(sc) =>
      if source !in Converters then Err(UnsupportedSource(source))
      else
        FormatTables(source);
        ConvertWithTable(sc, Converters[source])
  }

  /** Two lower-case letters followed by digits parse into exactly those two parts. */
  lemma TwoLetterCodeParses(region: string, number: string)
    requires |region| == 2 && 'a' <= region[0] <= 'z' && 'a' <= region[1] <= 'z'
    requires |number| > 0 && AllDigits(number)
    ensures ParseStockCode(region + number) == Ok(StockCode(region, number))
  {
    var c := region + number;
    assert c[..2] == region && c[2..] == number;
    assert ToLower(c) == c by {
      forall i | 0 <= i < |c| ensures LowerChar(c[i]) == c[i] {
        if i >= 2 {
          assert c[i] == number[i - 2];
        }
      }
    }
    assert IsDigit(c[2]);
    LetterRunEndsAt(c, 2);
  }

  /** A known region followed by digits converts, for either vendor, to itself. */
  lemma KnownCodeConverts(region: string, number: string, source: string)
    requires region in KnownRegions && |number| > 0 && AllDigits(number) && source in Converters
    ensures ConvertForSource(region + number, source) == Ok(region + number)
  {
    assert |region| == 2 && 'a' <= region[0] <= 'z' && 'a' <= region[1] <= 'z';
    TwoLetterCodeParses(region, number);
  }

  /** A region outside hk/sh/sz cannot be converted, e.g. the Beijing code bj600000. */
  lemma BeijingCodeUnsupported()
    ensures ConvertForSource("bj600000", "sina") == Err(UnsupportedRegion("bj"))
  {
    TwoLetterCodeParses("bj", "600000");
    assert "bj" + "600000" == "bj600000";
    assert "bj" !in KnownRegions;
  }

  /** GetSupportedRegions: the lower-cased field names of a known source, nothing otherwise. */
  method GetSupportedRegions(source: string) returns (regions: seq<string>)
    ensures source in Converters ==> regions == KnownRegions
    ensures source !in Converters ==> regions == []
  {
    if source !in Converters {
      return [];
    }
    var fields := Converters[source];
    regions := [];
    for i := 0 to |fields|
      invariant |regions| == i
      invariant forall j :: 0 <= j < i ==> regions[j] == ToLower(fields[j].name)
    {
      regions := regions + [ToLower(fields[i].name)];
    }
    FormatTables(source);
  }

  // ---------------------------------------------------------------------------
  // CrawlerInput.Normalize

  /** `parts[1] + parts[0]` when splitting on "." gives exactly two parts; else unchanged. */
  function SwapDotted(s: string): string
  {
    var parts := Split(s, '.');
    if |parts| == 2 then parts[1] + parts[0] else s
  }

  /** With exactly one dot, the two sides swap places and keep their case. */
  lemma SwapDottedOneDot(a: string, b: string)
    requires '.' !in a && '.' !in b
    ensures SwapDotted(a + "." + b) == b + a
  {
    SplitAtFirst(a, '.', b);
    SplitNoSeparator(b, '.');
  }

  /** With no dot or with two or more dots, nothing changes. */
  lemma SwapDottedUnchanged(s: string)
    requires Count(s, '.') != 1
    ensures SwapDotted(s) == s
  {
    SplitCount(s, '.');
  }

  /** Which fields of CrawlerInput, in declaration order, carry `transform:"true"`. */
  const TransformTags: seq<bool> := [false, true, true]

  class CrawlerInput {
    var stockName: string
    var originalACode: string
    var originalHCode: string

    constructor (stockName: string, originalACode: string, originalHCode: string)
      ensures this.stockName == stockName
      ensures this.originalACode == originalACode
      ensures this.originalHCode == originalHCode
    {
      this.stockName := stockName;
      this.originalACode := originalACode;
      this.originalHCode := originalHCode;
    }

    /** Field `i` in declaration order. */
    function Field(i: nat): string
      requires i < 3
      reads this
    {
      if i == 0 then stockName else if i == 1 then originalACode else originalHCode
    }

    method SetField(i: nat, v: string)
      requires i < 3
      modifies this
      ensures Field(i) == v
      ensures forall j :: 0 <= j < 3 && j != i ==> Field(j) == old(Field(j))
    {
      if i == 0 { stockName := v; } else if i == 1 { originalACode := v; } else { originalHCode := v; }
    }

    /** Normalize: every tagged field is rewritten by SwapDotted; the name is untouched. */
    method Normalize()
      modifies this
      ensures stockName == old(stockName)
      ensures originalACode == SwapDotted(old(originalACode))
      ensures originalHCode == SwapDotted(old(originalHCode))
    {
      for i := 0 to 3
        invariant forall j :: 0 <= j < i ==>
                    Field(j) == if TransformTags[j] then SwapDotted(old(Field(j))) else old(Field(j))
        invariant forall j :: i <= j < 3 ==> Field(j) == old(Field(j))
      {
        if TransformTags[i] {
          var parts := Split(Field(i), '.');
          if |parts| == 2 {
            SetField(i, parts[1] + parts[0]);
          }
        }
      }
      assert Field(0) == stockName && Field(1) == originalACode && Field(2) == originalHCode;
    }
  }
}
