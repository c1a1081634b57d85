/** The Sina API probe script (test_sina_stock_api): one request for an A-share and an H-share
    code, each answer line read with the A-share or the Hong Kong field layout according to
    its code, and the resulting dict printed. Nothing inside the line loop catches an
    exception, so a field that does not parse ends the run before anything is printed. */
module SinaApiProbe {
  import opened Wrappers
  import opened Text
  import opened Quotes
  import opened PyRuntime
  import Sina
  import LegacyFetcher

  /** The codes the script asks for: an A share and an H share. */
  const TestCodes: seq<string> := ["sh600036", "hk00939"]

  const HShare: string := "H股"
  const AShare: string := "A股"

  /** The two keys added only for a positive previous close. */
  datatype ChangeKeys = ChangeKeys(change: real, changePercent: real)

  /** One entry of the printed dict; `changes` is None when its two keys are absent. */
  datatype Record = Record(
    name: string,
    currentPrice: real,
    yesterdayClose: real,
    todayOpen: real,
    todayHigh: real,
    todayLow: real,
    volume: int,
    date: string,
    time: string,
    rawDataLength: nat,
    stockType: string,
    changes: Option<ChangeKeys>)

  /** What one line does: nothing, one dict entry, or an exception that ends the run. */
  datatype Outcome = Skipped | Parsed(code: string, record: Record) | Raised

  /** The change keys of a record: present exactly for a positive previous close. */
  function ChangesFor(current: real, previous: real): (c: Option<ChangeKeys>)
    ensures c.Some? <==> previous > 0.0
    ensures c.Some? ==> c.value.change + previous == current
                        && c.value.changePercent * previous == c.value.change * 100.0
  {
    if previous > 0.0 then
      var change := current - previous;
      Some(ChangeKeys(change, change / previous * 100.0))
    else None
  }

  /** The dict literal of the Hong Kong branch (at least 7 fields), before any change key:
      name 1, price 6, previous close 3, open 2, high 4, low 5; the volume from field 12 and
      the date and time from fields 17 and 18 only when there are that many fields. None
      when float() raises. */
  function HkFields(num: NumParsers, parts: seq<string>): Option<Record>
    requires |parts| >= 7
  {
    var current := FloatOrZero(num, parts[6]);
    var previous := FloatOrZero(num, parts[3]);
    var open := FloatOrZero(num, parts[2]);
    var high := FloatOrZero(num, parts[4]);
    var low := FloatOrZero(num, parts[5]);
    var volume := if |parts| > 12 then IntOfFloatOrZero(num, parts[12]) else Some(0);
    if current.None? || previous.None? || open.None? || high.None? || low.None? || volume.None? then None
    else
      Some(Record(parts[1], current.value, previous.value, open.value, high.value, low.value, volume.value,
                  if |parts| > 17 then parts[17] else "", if |parts| > 18 then parts[18] else "",
                  |parts|, HShare, None))
  }

  /** The dict literal of the A-share branch (at least 32 fields), before any change key:
      name 0, price 3, previous close 2, open 1, high 4, low 5, volume 8, date 30, time 31.
      None when float() or int() raises. */
  function AFields(num: NumParsers, parts: seq<string>): Option<Record>
    requires |parts| >= 32
  {
    var current := FloatOrZero(num, parts[3]);
    var previous := FloatOrZero(num, parts[2]);
    var open := FloatOrZero(num, parts[1]);
    var high := FloatOrZero(num, parts[4]);
    var low := FloatOrZero(num, parts[5]);
    var volume := IntOrZero(num, parts[8]);
    if current.None? || previous.None? || open.None? || high.None? || low.None? || volume.None? then None
    else
      Some(Record(parts[0], current.value, previous.value, open.value, high.value, low.value, volume.value,
                  parts[30], parts[31], |parts|, AShare, None))
  }

  /** A record with its change keys added when its previous close is positive. */
  function WithChanges(r: Record): Record {
    r.(changes := ChangesFor(r.currentPrice, r.yesterdayClose))
  }

  /** The outcome of a record-building step: an exception, or the record with its change keys. */
  function Built(code: string, r: Option<Record>): Outcome {
    match r
    case None => Raised
    case Some(record) => Parsed(code, WithChanges(record))
  }

  /** One line: considered only when it holds '=' and '"' and its first quoted segment is not
      empty; a code starting with 'hk' needs at least 7 comma-separated fields, any other at
      least 32, and a line with fewer is skipped. */
  function ProbeLine(num: NumParsers, line: string): Outcome {
    if '=' in line && '"' in line then
      var code := KeyOf(line, "var hq_str_");
      var data := Quoted(line);
      if data == "" then Skipped
      else
        var parts := Split(data, ',');
        if "hk" <= code then
          if |parts| >= 7 then Built(code, HkFields(num, parts)) else Skipped
        else if |parts| >= 32 then Built(code, AFields(num, parts))
        else Skipped
    else Skipped
  }

  function ProbeEntry(num: NumParsers): string -> Option<(string, Record)> {
    line => if ProbeLine(num, line).Parsed? then Some((ProbeLine(num, line).code, ProbeLine(num, line).record)) else None
  }

  /** The dict built from the lines, or None when one of them raises. */
  function ProbeResults(num: NumParsers, lines: seq<string>): Option<map<string, Record>> {
    if exists i :: 0 <= i < |lines| && ProbeLine(num, lines[i]).Raised? then None
    else Some(Gather(ProbeEntry(num), lines))
  }

  /** What test_sina_stock_api prints: the dict, or None for the failure message (the request
      raised, or a line did). */
  function Run(env: PyEnv): Option<map<string, Record>> {
    match env.get(Sina.BaseUrl + Join(TestCodes, ','))
    case None => None
    case Some(text) => ProbeResults(env.num, Lines(text))
  }

  /** No line of the prefix read so far has raised. */
  predicate NoneRaised(num: NumParsers, lines: seq<string>)
    decreases |lines|
  {
    |lines| == 0 || (NoneRaised(num, lines[..|lines| - 1]) && !ProbeLine(num, lines[|lines| - 1]).Raised?)
  }

  /** NoneRaised holds exactly when no line raises. */
  lemma {:induction false} NoneRaisedAll(num: NumParsers, lines: seq<string>)
    ensures NoneRaised(num, lines) <==> forall j :: 0 <= j < |lines| ==> !ProbeLine(num, lines[j]).Raised?
    decreases |lines|
  {
    if |lines| > 0 {
      var init := lines[..|lines| - 1];
      NoneRaisedAll(num, init);
      assert forall j :: 0 <= j < |init| ==> init[j] == lines[j];
    }
  }

  /** test_sina_stock_api. */
  method TestSinaStockApi(env: PyEnv) returns (printed: Option<map<string, Record>>)
    ensures printed == Run(env)
  {
    var codesStr := Join(TestCodes, ',');
    var response := env.get(Sina.BaseUrl + codesStr);
    if response.None? {
      return None;
    }
    printed := ReadLines(env.num, Lines(response.value));
  }

  /** The line loop of test_sina_stock_api: the dict, or None as soon as a line raises. */
  method ReadLines(num: NumParsers, lines: seq<string>) returns (printed: Option<map<string, Record>>)
    ensures printed == ProbeResults(num, lines)
  {
    var results: map<string, Record> := map[];
    for i := 0 to |lines|
      invariant NoneRaised(num, lines[..i])
      invariant results == Gather(ProbeEntry(num), lines[..i])
    {
      var next := ReadLine(num, lines[i], results);
      if next.None? {
        assert ProbeLine(num, lines[i]).Raised?;
        return None;
      }
      assert lines[..i + 1][..i] == lines[..i];
      results := next.value;
    }
    assert lines[..|lines|] == lines;
    NoneRaisedAll(num, lines);
    return Some(results);
  }

  /** The body of the line loop: the dict after one line, or None when the line raises. The
      record is stored first and its change keys added to the stored entry afterwards. */
  method ReadLine(num: NumParsers, line: string, results: map<string, Record>) returns (next: Option<map<string, Record>>)
    ensures next.None? <==> ProbeLine(num, line).Raised?
    ensures next.Some? ==> next.value == Put(results, ProbeEntry(num)(line))
  {
    next := Some(results);
    if '=' in line && '"' in line {
      var code := KeyOf(line, "var hq_str_");
      var dataStr := Quoted(line);
      if dataStr != "" {
        var dataParts := Split(dataStr, ',');
        var record: Option<Record> := None;
        if "hk" <= code {
          if |dataParts| >= 7 {
            record := HkFields(num, dataParts);
            if record.None? {
              return None;
            }
          }
        } else if |dataParts| >= 32 {
          record := AFields(num, dataParts);
          if record.None? {
            return None;
          }
        }
        if record.Some? {
          assert record.value.changes == None;
          var stored := results[code := record.value];
          var previous := record.value.yesterdayClose;
          if previous > 0.0 {
            var change := record.value.currentPrice - previous;
            var changePercent := change / previous * 100.0;
            stored := stored[code := stored[code].(changes := Some(ChangeKeys(change, changePercent)))];
          }
          assert stored == results[code := WithChanges(record.value)];
          next := Some(stored);
        }
      }
    }
  }

  // ---------------------------------------------------------------------------
  // Properties

  /** The shape of a printed entry: the H-share layout exactly for an 'hk' key, with at
      least 7 fields, the A-share layout with at least 32 otherwise, and change keys exactly
      when the previous close is positive. */
  predicate WellTyped(code: string, r: Record) {
    (r.stockType == HShare <==> "hk" <= code)
    && (r.stockType == HShare || r.stockType == AShare)
    && r.rawDataLength >= (if "hk" <= code then 7 else 32)
    && (r.changes.Some? <==> r.yesterdayClose > 0.0)
    && (r.changes.Some? ==> r.changes.value.change + r.yesterdayClose == r.currentPrice)
  }

  /** Every parsed line yields a well-typed entry. */
  lemma ProbeLineShape(num: NumParsers, line: string)
    ensures ProbeLine(num, line).Parsed? ==> WellTyped(ProbeLine(num, line).code, ProbeLine(num, line).record)
  {
    assert HShare != AShare by {
      assert HShare[0] != AShare[0];
    }
  }

  /** Every entry of a printed dict is well typed and comes from one of the response lines. */
  lemma RunShape(env: PyEnv, text: string)
    requires env.get(Sina.BaseUrl + Join(TestCodes, ',')) == Some(text)
    ensures Run(env).Some? <==> forall i :: 0 <= i < |Lines(text)| ==> !ProbeLine(env.num, Lines(text)[i]).Raised?
    ensures Run(env).Some? ==> forall k :: k in Run(env).value ==> WellTyped(k, Run(env).value[k])
  {
    if Run(env).Some? {
      var m := Run(env).value;
      var lines := Lines(text);
      forall k | k in m ensures WellTyped(k, m[k]) {
        GatherValues(ProbeEntry(env.num), lines, k);
        var i :| 0 <= i < |lines| && ProbeEntry(env.num)(lines[i]) == Some((k, m[k]));
        ProbeLineShape(env.num, lines[i]);
      }
    }
  }

  /** One line that raises, wherever it is, means nothing is printed, even when every other
      line parses. */
  lemma OneBadLineAborts(env: PyEnv, text: string, i: nat)
    requires env.get(Sina.BaseUrl + Join(TestCodes, ',')) == Some(text)
    requires i < |Lines(text)| && ProbeLine(env.num, Lines(text)[i]).Raised?
    ensures Run(env) == None
  {
  }

  /** A Hong Kong answer line with at least 7 fields free of ',' and '"' is read with the H-share
      layout under its own code; it raises exactly when one of the fields read does not parse. */
  lemma HkLineRoundTrip(num: NumParsers, code: string, fields: seq<string>)
    requires "hk" <= code && '=' !in code && '"' !in code && '_' !in code
    requires |fields| >= 7
    requires forall i :: 0 <= i < |fields| ==> ',' !in fields[i] && '"' !in fields[i]
    ensures ProbeLine(num, Sina.Line(code, fields)) == Built(code, HkFields(num, fields))
  {
    LegacyFetcher.SinaLineParts(code, fields);
  }

  /** An A-share answer line with at least 32 fields free of ',' and '"' is read with the A-share
      layout under its own code. */
  lemma ALineRoundTrip(num: NumParsers, code: string, fields: seq<string>)
    requires !("hk" <= code) && '=' !in code && '"' !in code && '_' !in code
    requires |fields| >= 32
    requires forall i :: 0 <= i < |fields| ==> ',' !in fields[i] && '"' !in fields[i]
    ensures ProbeLine(num, Sina.Line(code, fields)) == Built(code, AFields(num, fields))
  {
    LegacyFetcher.SinaLineParts(code, fields);
  }

  /** On a line whose code does not start with 'hk', the probe and the legacy fetcher read
      the same fields the same way: one keeps the line exactly when the other does, with the
      same key, name, prices, volume, date and time; the probe's change keys, when present,
      are the legacy ones, and the legacy ones are 0 when the probe's are absent. */
  lemma AgreesWithLegacy(num: NumParsers, line: string)
    requires !("hk" <= KeyOf(line, "var hq_str_"))
    ensures ProbeLine(num, line).Parsed? <==> LegacyFetcher.AEntry(num, line).Some?
    ensures ProbeLine(num, line).Parsed? ==>
              var r := ProbeLine(num, line).record;
              var (k, p) := LegacyFetcher.AEntry(num, line).value;
              k == ProbeLine(num, line).code
              && p.name == r.name && p.currentPrice == r.currentPrice && p.yesterdayClose == r.yesterdayClose
              && p.todayOpen == r.todayOpen && p.todayHigh == r.todayHigh && p.todayLow == r.todayLow
              && p.volume == r.volume && p.date == r.date && p.time == r.time
              && (r.changes.Some? ==> p.change == r.changes.value.change && p.changePercent == r.changes.value.changePercent)
              && (r.changes.None? ==> p.change == 0.0 && p.changePercent == 0.0)
  {
  }
}
