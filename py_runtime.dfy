/** What the two Python scripts share: the world a run sees (an HTTP GET that may raise,
    Python's number syntax, the current date and time as strftime prints them), the
    conversions they apply to fields, and the loop that fills a result dict from the
    lines of a response, a later line overwriting an earlier one with the same key. */
module PyRuntime {
  import opened Wrappers
  import opened Text
  import opened Quotes

  /** `get(url)` is the decoded text of requests.get, or None when the request raises;
      `num` is float() and int() on strings (None where they raise ValueError);
      `nowDate` and `nowTime` are datetime.now() under '%Y-%m-%d' and '%H:%M:%S'. */
  datatype PyEnv = PyEnv(get: string -> Option<string>, num: NumParsers, nowDate: string, nowTime: string)

  /** `float(s) if s else 0`: None where float() raises. */
  function FloatOrZero(num: NumParsers, s: string): Option<real> {
    if s == "" then Some(0.0) else num.float(s)
  }

  /** `int(s) if s else 0`: None where int() raises. */
  function IntOrZero(num: NumParsers, s: string): Option<int> {
    if s == "" then Some(0) else num.integer(s)
  }

  /** int() of a float: truncation toward zero. */
  function Trunc(f: real): (n: int)
    ensures f >= 0.0 ==> 0 <= n && n as real <= f < n as real + 1.0
    ensures f < 0.0 ==> n <= 0 && n as real - 1.0 < f <= n as real
  {
    if f >= 0.0 then f.Floor else -((-f).Floor)
  }

  /** `int(float(s)) if s else 0`: None where float() raises. */
  function IntOfFloatOrZero(num: NumParsers, s: string): Option<int> {
    if s == "" then Some(0)
    else match num.float(s)
      case None => None
      case Some(f) => Some(Trunc(f))
  }

  /** `text.strip().split('\n')`. */
  function Lines(text: string): seq<string> {
    Split(TrimSpace(text), '\n')
  }

  /** `line.split('"')[1]`, the first quoted segment of a line holding a double quote. */
  function Quoted(line: string): string
    requires '"' in line
  {
    SplitHasSeparator(line, '"');
    Split(line, '"')[1]
  }

  /** `line.split('=')[0].replace(marker, '')`: the text before the first '=' with every
      occurrence of `marker` removed. */
  function KeyOf(line: string, marker: string): string
    requires |marker| > 0
  {
    ReplaceAll(Split(line, '=')[0], marker, "")
  }

  /** The key of a line that starts with the marker, then a code holding neither '=' nor
      some character of the marker, then '=' is exactly that code. */
  lemma KeyOfMarkedLine(marker: string, code: string, rest: string, c: char)
    requires |marker| > 0 && '=' !in marker && '=' !in code
    requires c in marker && c !in code
    ensures KeyOf(marker + code + "=" + rest, marker) == code
  {
    var line := marker + code + "=" + rest;
    assert line == (marker + code) + ['='] + rest;
    assert '=' !in marker + code;
    SplitAtFirst(marker + code, '=', rest);
    ReplaceAllLeading(code, marker, "");
    ReplaceAllAbsent(code, marker, "", c);
  }

  /** The first quoted segment of text with a segment between two double quotes is that
      segment. */
  lemma QuotedSegment(a: string, m: string, b: string)
    requires '"' !in a && '"' !in m
    ensures '"' in a + ['"'] + m + ['"'] + b
    ensures Quoted(a + ['"'] + m + ['"'] + b) == m
  {
    var line := a + ['"'] + m + ['"'] + b;
    assert line[|a|] == '"';
    assert line == a + ['"'] + (m + ['"'] + b);
    SplitAtFirst(a, '"', m + ['"'] + b);
    SplitAtFirst(m, '"', b);
  }

  // ---------------------------------------------------------------------------
  // The result dict of a line loop

  /** `results[key] = value` for a line that yields a key and a value; nothing for one that
      is skipped. */
  function Put<V>(results: map<string, V>, e: Option<(string, V)>): (r: map<string, V>)
    ensures e.Some? ==> r.Keys == results.Keys + {e.value.0} && r[e.value.0] == e.value.1
    ensures e.Some? ==> forall k :: k in results && k != e.value.0 ==> r[k] == results[k]
    ensures e.None? ==> r == results
  {
    match e
    case None => results
    case Some((k, v)) => results[k := v]
  }

  /** The dict a line loop builds when `entry` gives each line's key and value, or None for a
      line that is skipped: `results[key] = value` line after line. */
  function Gather<V>(entry: string -> Option<(string, V)>, lines: seq<string>): map<string, V>
    decreases |lines|
  {
    if |lines| == 0 then map[]
    else Put(Gather(entry, lines[..|lines| - 1]), entry(lines[|lines| - 1]))
  }

  /** A key is in the dict exactly when some line yields it. */
  lemma {:induction false} GatherKeys<V>(entry: string -> Option<(string, V)>, lines: seq<string>, k: string)
    ensures k in Gather(entry, lines) <==>
              exists i :: 0 <= i < |lines| && entry(lines[i]).Some? && entry(lines[i]).value.0 == k
    decreases |lines|
  {
    if |lines| > 0 {
      var init := lines[..|lines| - 1];
      var last := |lines| - 1;
      GatherKeys(entry, init, k);
      assert forall j :: 0 <= j < |init| ==> init[j] == lines[j];
      if k in Gather(entry, lines) {
        if !(entry(lines[last]).Some? && entry(lines[last]).value.0 == k) {
          var i :| 0 <= i < |init| && entry(init[i]).Some? && entry(init[i]).value.0 == k;
          assert entry(lines[i]).Some? && entry(lines[i]).value.0 == k;
        }
      }
      if exists i :: 0 <= i < |lines| && entry(lines[i]).Some? && entry(lines[i]).value.0 == k {
        var i :| 0 <= i < |lines| && entry(lines[i]).Some? && entry(lines[i]).value.0 == k;
        if i < last {
          assert entry(init[i]).Some? && entry(init[i]).value.0 == k;
        }
      }
    }
  }

  /** A line's value is the one kept for its key when no later line yields the same key. */
  lemma {:induction false} GatherLastWins<V>(entry: string -> Option<(string, V)>, lines: seq<string>, i: nat)
    requires i < |lines| && entry(lines[i]).Some?
    requires forall j :: i < j < |lines| && entry(lines[j]).Some? ==> entry(lines[j]).value.0 != entry(lines[i]).value.0
    ensures entry(lines[i]).value.0 in Gather(entry, lines)
    ensures Gather(entry, lines)[entry(lines[i]).value.0] == entry(lines[i]).value.1
    decreases |lines|
  {
    var init := lines[..|lines| - 1];
    if i < |lines| - 1 {
      assert forall j :: 0 <= j < |init| ==> init[j] == lines[j];
      GatherLastWins(entry, init, i);
    }
  }

  /** Every value in the dict is the value some line yields for its key. */
  lemma {:induction false} GatherValues<V>(entry: string -> Option<(string, V)>, lines: seq<string>, k: string)
    requires k in Gather(entry, lines)
    ensures exists i :: 0 <= i < |lines| && entry(lines[i]) == Some((k, Gather(entry, lines)[k]))
    decreases |lines|
  {
    var init := lines[..|lines| - 1];
    var last := |lines| - 1;
    if entry(lines[last]).Some? && entry(lines[last]).value.0 == k {
      assert entry(lines[last]) == Some((k, Gather(entry, lines)[k]));
    } else {
      GatherValues(entry, init, k);
      var i :| 0 <= i < |init| && entry(init[i]) == Some((k, Gather(entry, init)[k]));
      assert init[i] == lines[i];
    }
  }

  // ---------------------------------------------------------------------------
  // Partitioning codes on the 'hk' prefix

  /** `[code for code in codes if code.startswith('hk') == hk]`. */
  function Filter(codes: seq<string>, hk: bool): (r: seq<string>)
    ensures |r| <= |codes|
  {
    if |codes| == 0 then []
    else
      var last := codes[|codes| - 1];
      Filter(codes[..|codes| - 1], hk) + (if ("hk" <= last) == hk then [last] else [])
  }

  /** The two comprehensions split the codes: each code lands in exactly the one its prefix
      selects, keeping its multiplicity. */
  lemma {:induction false} FilterPartition(codes: seq<string>)
    ensures multiset(Filter(codes, false)) + multiset(Filter(codes, true)) == multiset(codes)
    ensures forall x :: x in Filter(codes, false) <==> x in codes && !("hk" <= x)
    ensures forall x :: x in Filter(codes, true) <==> x in codes && "hk" <= x
    decreases |codes|
  {
    if |codes| > 0 {
      var init := codes[..|codes| - 1];
      FilterPartition(init);
      assert codes == init + [codes[|codes| - 1]];
    }
  }

  /** Filtering again on the same side keeps everything. */
  lemma {:induction false} FilterTwice(codes: seq<string>, hk: bool)
    ensures Filter(Filter(codes, hk), hk) == Filter(codes, hk)
    decreases |codes|
  {
    if |codes| > 0 {
      var init := codes[..|codes| - 1];
      var last := codes[|codes| - 1];
      FilterTwice(init, hk);
      var f := Filter(init, hk);
      if ("hk" <= last) == hk {
        assert Filter(codes, hk) == f + [last];
        assert (f + [last])[..|f|] == f;
        assert Filter(f + [last], hk) == Filter(f, hk) + [last];
      } else {
        assert Filter(codes, hk) == f;
      }
    }
  }
}
