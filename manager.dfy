/** The crawler registry and the routing of codes to vendors (CrawlerManagerImpl): a single
    code goes to the crawler its two-character prefix selects, and a batch is split into a
    Sina group and a Tencent group, each fetched with one vendor call. */
module CrawlerManager {
  import opened Wrappers
  import opened Quotes
  import Sina
  import Tencent

  /** The crawler implementations a registry entry can hold. */
  datatype Crawler = SinaCrawler | TencentCrawler

  /** The registry NewCrawlerManager builds. */
  const DefaultCrawlers: map<string, Crawler> := map["sina" := SinaCrawler, "tencent" := TencentCrawler]

  /** GetStockData / GetStockDataRealTime of one crawler; the Sina crawler's real-time form
      is its plain form. */
  function Fetch(c: Crawler, env: Env, code: string, realTime: bool): Result<Quote, Error> {
    match c
    case SinaCrawler => Sina.StockData(env, code)
    case TencentCrawler => Tencent.StockData(env, code, realTime)
  }

  /** GetMultipleStockData / GetMultipleStockDataRealTime of one crawler. */
  function FetchBatch(c: Crawler, env: Env, codes: seq<string>, realTime: bool): Result<seq<Quote>, Error> {
    match c
    case SinaCrawler => Sina.Batch(env, codes)
    case TencentCrawler => Tencent.Batch(env, codes, realTime)
  }

  /** Either crawler's batch yields at most one quote per code, each for a requested code. */
  lemma FetchBatchBound(c: Crawler, env: Env, codes: seq<string>, realTime: bool)
    ensures FetchBatch(c, env, codes, realTime).Ok? ==>
              |FetchBatch(c, env, codes, realTime).value| <= |codes|
              && forall q :: q in FetchBatch(c, env, codes, realTime).value ==> q.code in codes
  {
    match c
    case SinaCrawler => Sina.BatchBound(env, codes);
    case TencentCrawler => Tencent.BatchBound(env, codes, realTime);
  }

  /** The batch call of one crawler, as the manager issues it. */
  method CallBatch(c: Crawler, env: Env, codes: seq<string>, realTime: bool) returns (r: Result<seq<Quote>, Error>)
    ensures r == FetchBatch(c, env, codes, realTime)
  {
    match c {
      case SinaCrawler => r := Sina.GetMultipleStockData(env, codes);
      case TencentCrawler => r := Tencent.GetMultipleStockData(env, codes, realTime);
    }
  }

  // ---------------------------------------------------------------------------
  // Routing

  /** The source GetStockData picks from the exact first two characters: "hk" is Tencent,
      "sh" and "sz" are Sina, and everything else (short codes, upper-case prefixes, other
      markets) falls back to Sina. */
  function Route(code: string): string {
    if |code| >= 2 && code[..2] == "hk" then "tencent"
    else if |code| >= 2 && (code[..2] == "sh" || code[..2] == "sz") then "sina"
    else "sina"
  }

  /** The group a batch code joins; a code shorter than two characters joins none. */
  function GroupOf(code: string): Option<string> {
    if |code| < 2 then None
    else if code[..2] == "hk" then Some("tencent")
    else if code[..2] == "sh" || code[..2] == "sz" then Some("sina")
    else Some("sina")
  }

  /** Routing is Tencent exactly for an "hk" prefix, and a batch code long enough to be
      grouped joins the group of the source a single fetch of it would use. */
  lemma RouteCases(code: string)
    ensures Route(code) == "tencent" <==> |code| >= 2 && code[..2] == "hk"
    ensures Route(code) != "tencent" ==> Route(code) == "sina"
    ensures GroupOf(code).None? <==> |code| < 2
    ensures |code| >= 2 ==> GroupOf(code) == Some(Route(code))
  {
  }

  /** The codes of `codes` that join group `source`, in input order. */
  function Group(codes: seq<string>, source: string): (g: seq<string>)
    ensures |g| <= |codes|
  {
    if |codes| == 0 then []
    else
      var last := codes[|codes| - 1];
      Group(codes[..|codes| - 1], source) + (if GroupOf(last) == Some(source) then [last] else [])
  }

  /** A code is in a group exactly when it is one of the input codes and joins that group. */
  lemma {:induction false} GroupMembers(codes: seq<string>, source: string, x: string)
    ensures x in Group(codes, source) <==> x in codes && GroupOf(x) == Some(source)
    decreases |codes|
  {
    if |codes| > 0 {
      var init := codes[..|codes| - 1];
      GroupMembers(init, source, x);
      assert codes == init + [codes[|codes| - 1]];
    }
  }

  /** Grouping keeps the input order: the group of a concatenation is the concatenation of
      the groups. */
  lemma {:induction false} GroupConcat(a: seq<string>, b: seq<string>, source: string)
    ensures Group(a + b, source) == Group(a, source) + Group(b, source)
    decreases |b|
  {
    if |b| > 0 {
      var init := b[..|b| - 1];
      assert (a + b)[..|a + b| - 1] == a + init;
      assert (a + b)[|a + b| - 1] == b[|b| - 1];
      GroupConcat(a, init, source);
    } else {
      assert a + b == a;
    }
  }

  /** The two groups hold no more codes than the input, and all of them when every code is
      at least two characters long. */
  lemma {:induction false} GroupSizes(codes: seq<string>)
    ensures |Group(codes, "sina")| + |Group(codes, "tencent")| <= |codes|
    ensures (forall i :: 0 <= i < |codes| ==> |codes[i]| >= 2) ==>
              |Group(codes, "sina")| + |Group(codes, "tencent")| == |codes|
    decreases |codes|
  {
    if |codes| > 0 {
      GroupSizes(codes[..|codes| - 1]);
    }
  }

  class Manager {
    var crawlers: map<string, Crawler>

    /** NewCrawlerManager: an empty registry, then Sina and Tencent registered. */
    constructor ()
      ensures crawlers == DefaultCrawlers
    {
      crawlers := map[];
      new;
      RegisterCrawler("sina", SinaCrawler);
      RegisterCrawler("tencent", TencentCrawler);
    }

    /** RegisterCrawler: set one entry, leaving the others as they were. */
    method RegisterCrawler(name: string, crawler: Crawler)
      modifies this
      ensures crawlers == old(crawlers)[name := crawler]
    {
      crawlers := crawlers[name := crawler];
    }

    /** GetStockDataFromSource (and its RealTime form): the named crawler, or an error when
        no crawler is registered under that name. */
    function FromSource(env: Env, code: string, source: string, realTime: bool): Result<Quote, Error>
      reads this
    {
      if source in crawlers then Fetch(crawlers[source], env, code, realTime)
      else Err(CrawlerMissing(source))
    }

    /** GetStockData (and its RealTime form): the source the code's prefix selects. */
    function StockData(env: Env, code: string, realTime: bool): Result<Quote, Error>
      reads this
    {
      FromSource(env, code, Route(code), realTime)
    }

    /** What one group adds to a batch: nothing when it is empty, when its crawler is not
        registered, or when the crawler's batch call fails. */
    function Contribution(env: Env, group: seq<string>, source: string, realTime: bool): seq<Quote>
      reads this
    {
      if |group| > 0 && source in crawlers && FetchBatch(crawlers[source], env, group, realTime).Ok? then
        FetchBatch(crawlers[source], env, group, realTime).value
      else []
    }

    /** GetMultipleStockData (and its RealTime form), as a function: the Sina group's quotes
        followed by the Tencent group's. The call never reports an error. */
    function BatchResult(env: Env, codes: seq<string>, realTime: bool): seq<Quote>
      reads this
    {
      Contribution(env, Group(codes, "sina"), "sina", realTime)
        + Contribution(env, Group(codes, "tencent"), "tencent", realTime)
    }

    /** GetMultipleStockData (and its RealTime form): group the codes by prefix, then issue
        at most one batch call per group. */
    method GetMultipleStockData(env: Env, codes: seq<string>, realTime: bool) returns (results: seq<Quote>)
      ensures results == BatchResult(env, codes, realTime)
    {
      var sinaGroup, tencentGroup := Partition(codes);
      var fromSina := Contribute(env, sinaGroup, "sina", realTime);
      var fromTencent := Contribute(env, tencentGroup, "tencent", realTime);
      results := fromSina + fromTencent;
    }

    /** One group's batch call, issued only when the group is non-empty and its crawler is
        registered; a failed call adds nothing. */
    method Contribute(env: Env, group: seq<string>, source: string, realTime: bool) returns (qs: seq<Quote>)
      ensures qs == Contribution(env, group, source, realTime)
    {
      qs := [];
      if |group| > 0 && source in crawlers {
        var r := CallBatch(crawlers[source], env, group, realTime);
        if r.Ok? {
          qs := r.value;
        }
      }
    }
  }

  /** The grouping loop of GetMultipleStockData: codes shorter than two characters are
      dropped, "hk" codes go to the Tencent group and all others to the Sina group. */
  method Partition(codes: seq<string>) returns (sinaGroup: seq<string>, tencentGroup: seq<string>)
    ensures sinaGroup == Group(codes, "sina")
    ensures tencentGroup == Group(codes, "tencent")
  {
    sinaGroup := [];
    tencentGroup := [];
    for i := 0 to |codes|
      invariant sinaGroup == Group(codes[..i], "sina")
      invariant tencentGroup == Group(codes[..i], "tencent")
    {
      var code := codes[i];
      assert codes[..i + 1][..i] == codes[..i];
      if |code| >= 2 {
        var prefix := code[..2];
        if prefix == "hk" {
          tencentGroup := tencentGroup + [code];
        } else if prefix == "sh" || prefix == "sz" {
          sinaGroup := sinaGroup + [code];
        } else {
          sinaGroup := sinaGroup + [code];
        }
      }
    }
    assert codes[..|codes|] == codes;
  }

  /** With the default registry, an "hk" code is fetched from Tencent and every other code
      from Sina; an unregistered source is an error naming it. */
  lemma DefaultRouting(m: Manager, env: Env, code: string, realTime: bool, source: string)
    requires m.crawlers == DefaultCrawlers
    ensures |code| >= 2 && code[..2] == "hk" ==> m.StockData(env, code, realTime) == Tencent.StockData(env, code, realTime)
    ensures !(|code| >= 2 && code[..2] == "hk") ==> m.StockData(env, code, realTime) == Sina.StockData(env, code)
    ensures source != "sina" && source != "tencent" ==> m.FromSource(env, code, source, realTime) == Err(CrawlerMissing(source))
  {
    RouteCases(code);
  }

  /** A batch yields at most one quote per code, and only quotes for requested codes. */
  lemma BatchCodes(m: Manager, env: Env, codes: seq<string>, realTime: bool)
    ensures |m.BatchResult(env, codes, realTime)| <= |codes|
    ensures forall q :: q in m.BatchResult(env, codes, realTime) ==> q.code in codes
  {
    var s := Group(codes, "sina");
    var t := Group(codes, "tencent");
    GroupSizes(codes);
    if |s| > 0 && "sina" in m.crawlers {
      FetchBatchBound(m.crawlers["sina"], env, s, realTime);
    }
    if |t| > 0 && "tencent" in m.crawlers {
      FetchBatchBound(m.crawlers["tencent"], env, t, realTime);
    }
    forall q | q in m.BatchResult(env, codes, realTime) ensures q.code in codes {
      if q in m.Contribution(env, s, "sina", realTime) {
        GroupMembers(codes, "sina", q.code);
      } else {
        GroupMembers(codes, "tencent", q.code);
      }
    }
  }

  /** Every code in a batch group is one the single-code routing sends to that group's
      source. */
  lemma GroupRoute(codes: seq<string>, source: string, x: string)
    requires x in Group(codes, source)
    ensures x in codes && |x| >= 2 && Route(x) == source
  {
    GroupMembers(codes, source, x);
    RouteCases(x);
  }
}
