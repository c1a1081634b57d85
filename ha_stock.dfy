/** The H-A pair service (HAStockService): each catalogue pair is fetched as an A-share leg
    from Sina and an H-share leg from Tencent, and the paired results are kept in a
    cache-aside store with expiry. The store is a map with expiry instants; its failures, the
    repository's answers and the clock are parameters. */
module HAStock {
  import opened Wrappers
  import opened Text
  import opened Quotes
  import opened StockConverter
  import opened CrawlerManager
  import opened CrawlerService

  // ---------------------------------------------------------------------------
  // Keys, windows and lifetimes (seconds)

  const AllKey: string := "ha_stocks:all"

  function PairKey(stockName: string): string {
    "ha_stock:" + stockName
  }

  /** The aggregate key is never a per-name key, and per-name keys are one per name. */
  lemma PairKeys(a: string, b: string)
    ensures PairKey(a) != AllKey
    ensures PairKey(a) == PairKey(b) ==> a == b
  {
    assert PairKey(a)[8] == ':' && AllKey[8] == 's';
    if PairKey(a) == PairKey(b) {
      assert a == PairKey(a)[9..] && b == PairKey(b)[9..];
    }
  }

  /** How recent the head of a cached list must be, and a cached single pair. */
  const ListWindow: int := 120
  const SingleWindow: int := 60

  /** Lifetimes written by the read paths, RefreshAllHAStockData and ForceRefreshAllHAStockData. */
  const ListTtl: int := 120
  const SingleTtl: int := 120
  const RefreshTtl: int := 300
  const ForceRefreshTtl: int := 120

  // ---------------------------------------------------------------------------
  // convertStockCode

  const Markets: seq<string> := ["SH", "SZ", "HK"]

  /** convertStockCode: "601038.SH" becomes "sh601038"; a code shorter than three
      characters, without a dot, or whose text after the first dot is not exactly SH, SZ or
      HK is returned as it is. */
  function DottedCode(code: string): string {
    if |code| < 3 then code
    else
      match IndexOf(code, '.')
      case None => code
      case Some(d) =>
        var number := code[..d];
        var market := code[d + 1..];
        if market == "SH" then "sh" + number
        else if market == "SZ" then "sz" + number
        else if market == "HK" then "hk" + number
        else code
  }

  /** A number, a dot and an upper-case market become the lower-case market and the number. */
  lemma DottedCodeConverts(number: string, market: string)
    requires '.' !in number && market in Markets
    ensures DottedCode(number + "." + market) == ToLower(market) + number
  {
    var code := number + "." + market;
    IndexOfAfter(number, '.', market);
    assert code[..|number|] == number;
    assert code[|number| + 1..] == market;
    MarketLower(market);
  }

  /** The lower-case form of each market. */
  lemma MarketLower(market: string)
    requires market in Markets
    ensures ToLower(market) == if market == "SH" then "sh" else if market == "SZ" then "sz" else "hk"
  {
    assert |market| == 2;
    assert ToLower(market) == [LowerChar(market[0]), LowerChar(market[1])];
  }

  /** The converse: a code that changes at all had that shape. */
  lemma DottedCodeChanged(code: string)
    requires DottedCode(code) != code
    ensures exists number, market :: code == number + "." + market && '.' !in number && market in Markets
                                     && DottedCode(code) == ToLower(market) + number
  {
    var d := IndexOf(code, '.').value;
    var number := code[..d];
    var market := code[d + 1..];
    FirstSplitShape(code, '.', d);
    assert market in Markets by {
      assert market == "SH" || market == "SZ" || market == "HK";
    }
    DottedCodeConverts(number, market);
    assert code == number + "." + market;
  }

  /** A market other than exactly SH, SZ or HK leaves the code as it is. */
  lemma DottedCodeUnknownMarket(number: string, market: string)
    requires '.' !in number && market !in Markets
    ensures DottedCode(number + "." + market) == number + "." + market
  {
    var code := number + "." + market;
    IndexOfAfter(number, '.', market);
    assert code[|number| + 1..] == market;
  }

  /** A code that still holds a dot never parses. */
  lemma DotNeverParses(code: string)
    requires '.' in code
    ensures ParseStockCode(code).Err?
  {
    var i :| 0 <= i < |code| && code[i] == '.';
    var s := ToLower(code);
    assert s[i] == '.';
    forall k | 0 < k < |s| ensures !(AllLetters(s[..k]) && AllDigits(s[k..])) {
      if i < k {
        assert s[..k][i] == '.';
      } else {
        assert s[k..][i - k] == '.';
      }
    }
  }

  /** So a market written in lower case, as in 601038.sh, is left alone and then rejected. */
  lemma LowerCaseMarketUnconverted()
    ensures DottedCode("601038.sh") == "601038.sh"
    ensures ParseStockCode(DottedCode("601038.sh")).Err?
  {
    assert "601038" + "." + "sh" == "601038.sh";
    DottedCodeUnknownMarket("601038", "sh");
    assert "601038.sh"[6] == '.';
    DotNeverParses("601038.sh");
  }

  /** The loop of convertStockCode: find the first dot, then switch on the market. */
  method ConvertStockCode(code: string) returns (r: string)
    ensures r == DottedCode(code)
  {
    if |code| < 3 {
      return code;
    }
    var dotIndex := -1;
    var i := 0;
    while i < |code|
      invariant 0 <= i <= |code|
      invariant forall k :: 0 <= k < i ==> code[k] != '.'
    {
      if code[i] == '.' {
        dotIndex := i;
        break;
      }
      i := i + 1;
    }
    if dotIndex == -1 {
      assert '.' !in code;
      return code;
    }
    assert IndexOf(code, '.') == Some(dotIndex);
    var number := code[..dotIndex];
    var market := code[dotIndex + 1..];
    if market == "SH" {
      r := "sh" + number;
    } else if market == "SZ" {
      r := "sz" + number;
    } else if market == "HK" {
      r := "hk" + number;
    } else {
      r := code;
    }
  }

  // ---------------------------------------------------------------------------
  // getHAStockDataByPair

  /** The stock repository: the catalogue, and the lookup by name. */
  datatype Repository = Repository(
    all: Result<seq<StockPair>, Error>,
    byName: string -> Result<StockPair, Error>)

  /** The failures of the two legs, the A-share leg first. */
  function LegErrors(a: Result<Quote, Error>, h: Result<Quote, Error>): seq<Error> {
    (if a.Err? then [LegFailed(ALeg, a.error)] else []) + (if h.Err? then [LegFailed(HLeg, h.error)] else [])
  }

  /** The join of the two legs: both must succeed; the pair keeps its original codes. */
  function JoinLegs(pair: StockPair, a: Result<Quote, Error>, h: Result<Quote, Error>): (r: Result<HAStockData, Error>)
    ensures r.Ok? <==> a.Ok? && h.Ok?
    ensures r.Ok? ==> r.value == HAStockData(pair.stockName, pair.hStockCode, Some(h.value), pair.aStockCode, Some(a.value))
    ensures r.Err? ==> r.error == PairFailed(LegErrors(a, h))
    ensures |LegErrors(a, h)| == (if a.Err? then 1 else 0) + (if h.Err? then 1 else 0)
    ensures a.Err? ==> LegErrors(a, h)[0] == LegFailed(ALeg, a.error)
    ensures h.Err? ==> LegErrors(a, h)[|LegErrors(a, h)| - 1] == LegFailed(HLeg, h.error)
  {
    if a.Ok? && h.Ok? then
      Ok(HAStockData(pair.stockName, pair.hStockCode, Some(h.value), pair.aStockCode, Some(a.value)))
    else
      Err(PairFailed(LegErrors(a, h)))
  }

  /** getHAStockDataByPair (`realTime` false) and its RealTime form: the A code converted and
      fetched from Sina, the H code converted and fetched from Tencent, then joined. */
  function PairData(m: Manager, env: Env, pair: StockPair, realTime: bool): Result<HAStockData, Error>
    reads m
  {
    JoinLegs(pair,
             StockDataFromSource(m, env, DottedCode(pair.aStockCode), "sina", realTime),
             StockDataFromSource(m, env, DottedCode(pair.hStockCode), "tencent", realTime))
  }

  /** The A leg and the H leg asked for are the converted codes under the fixed sources. */
  lemma PairDataLegs(m: Manager, env: Env, pair: StockPair, realTime: bool)
    ensures PairData(m, env, pair, realTime).Ok? ==>
              PairData(m, env, pair, realTime).value.stockName == pair.stockName
              && PairData(m, env, pair, realTime).value.aStockCode == pair.aStockCode
              && PairData(m, env, pair, realTime).value.hStockCode == pair.hStockCode
              && PairData(m, env, pair, realTime).value.aStockData.Some?
              && PairData(m, env, pair, realTime).value.hStockData.Some?
              && StockDataFromSource(m, env, DottedCode(pair.aStockCode), "sina", realTime)
                 == Ok(PairData(m, env, pair, realTime).value.aStockData.value)
              && StockDataFromSource(m, env, DottedCode(pair.hStockCode), "tencent", realTime)
                 == Ok(PairData(m, env, pair, realTime).value.hStockData.value)
  {
  }

  /** A dotted catalogue code with a digit number converts to a code the converter accepts
      for either vendor unchanged. */
  lemma DottedCodeAccepted(number: string, market: string, source: string)
    requires |number| > 0 && AllDigits(number) && market in Markets && source in Converters
    ensures ConvertForSource(DottedCode(number + "." + market), source) == Ok(ToLower(market) + number)
  {
    DottedCodeConverts(number, market);
    MarketLower(market);
    KnownCodeConverts(ToLower(market), number, source);
  }

  /** End to end: a pair whose codes are a number, a dot and a market asks Sina for the
      lower-cased A code and Tencent for the lower-cased H code. */
  lemma PairOfDottedCodes(m: Manager, env: Env, pair: StockPair, realTime: bool,
                          aNumber: string, aMarket: string, hNumber: string, hMarket: string)
    requires pair.aStockCode == aNumber + "." + aMarket && |aNumber| > 0 && AllDigits(aNumber) && aMarket in Markets
    requires pair.hStockCode == hNumber + "." + hMarket && |hNumber| > 0 && AllDigits(hNumber) && hMarket in Markets
    ensures PairData(m, env, pair, realTime)
            == JoinLegs(pair, m.FromSource(env, ToLower(aMarket) + aNumber, "sina", realTime),
                              m.FromSource(env, ToLower(hMarket) + hNumber, "tencent", realTime))
  {
    DottedCodeAccepted(aNumber, aMarket, "sina");
    DottedCodeAccepted(hNumber, hMarket, "tencent");
  }

  /** The successfully joined pairs, in catalogue order; failed pairs are skipped. */
  function Fetched(m: Manager, env: Env, pairs: seq<StockPair>, realTime: bool): (r: seq<HAStockData>)
    reads m
    ensures |r| <= |pairs|
  {
    if |pairs| == 0 then []
    else
      var last := pairs[|pairs| - 1];
      var d := PairData(m, env, last, realTime);
      Fetched(m, env, pairs[..|pairs| - 1], realTime) + (if d.Ok? then [d.value] else [])
  }

  /** Every fetched entry is the joined data of one of the pairs. */
  lemma {:induction false} FetchedMembers(m: Manager, env: Env, pairs: seq<StockPair>, realTime: bool, d: HAStockData)
    requires d in Fetched(m, env, pairs, realTime)
    ensures exists i :: 0 <= i < |pairs| && PairData(m, env, pairs[i], realTime) == Ok(d)
    decreases |pairs|
  {
    var init := pairs[..|pairs| - 1];
    if d in Fetched(m, env, init, realTime) {
      FetchedMembers(m, env, init, realTime, d);
      var i :| 0 <= i < |init| && PairData(m, env, init[i], realTime) == Ok(d);
      assert pairs[i] == init[i];
    } else {
      assert PairData(m, env, pairs[|pairs| - 1], realTime) == Ok(d);
    }
  }

  /** When every pair joins, nothing is skipped; when none does, nothing is fetched. */
  lemma {:induction false} FetchedExtremes(m: Manager, env: Env, pairs: seq<StockPair>, realTime: bool)
    ensures (forall i :: 0 <= i < |pairs| ==> PairData(m, env, pairs[i], realTime).Ok?) ==>
              |Fetched(m, env, pairs, realTime)| == |pairs|
    ensures (forall i :: 0 <= i < |pairs| ==> PairData(m, env, pairs[i], realTime).Err?) ==>
              Fetched(m, env, pairs, realTime) == []
    decreases |pairs|
  {
    if |pairs| > 0 {
      var init := pairs[..|pairs| - 1];
      assert forall i :: 0 <= i < |init| ==> init[i] == pairs[i];
      FetchedExtremes(m, env, init, realTime);
    }
  }

  // ---------------------------------------------------------------------------
  // Freshness

  /** The update time freshness is judged by: the A leg's when present, else the H leg's. */
  function LeadTime(d: HAStockData): Option<int> {
    if d.aStockData.Some? then Some(d.aStockData.value.updateTime)
    else if d.hStockData.Some? then Some(d.hStockData.value.updateTime)
    else None
  }

  /** The shared rule of isCacheDataFresh and isSingleStockCacheFresh. */
  predicate FreshWithin(d: HAStockData, now: int, window: int) {
    if d.aStockData.Some? then now - d.aStockData.value.updateTime < window
    else if d.hStockData.Some? then now - d.hStockData.value.updateTime < window
    else false
  }

  /** isCacheDataFresh: only the first entry is consulted. */
  predicate IsCacheDataFresh(data: seq<HAStockData>, now: int) {
    |data| > 0 && FreshWithin(data[0], now, ListWindow)
  }

  /** isSingleStockCacheFresh. */
  predicate IsSingleStockCacheFresh(d: HAStockData, now: int) {
    FreshWithin(d, now, SingleWindow)
  }

  /** Freshness is a strict age bound on the lead time; an entry with neither leg is never
      fresh, and the H leg matters only when the A leg is missing. */
  lemma FreshnessRules(d: HAStockData, now: int, window: int)
    ensures FreshWithin(d, now, window) <==> LeadTime(d).Some? && now - LeadTime(d).value < window
    ensures d.aStockData.None? && d.hStockData.None? ==> !FreshWithin(d, now, window)
    ensures d.aStockData.Some? ==>
              forall h :: FreshWithin(d.(hStockData := h), now, window) == FreshWithin(d, now, window)
  {
  }

  /** A list is judged by its head alone, an entry fresh now was fresh earlier, and a head
      fresh under the single-pair window is fresh under the list window. */
  lemma FreshnessOrder(a: seq<HAStockData>, b: seq<HAStockData>, now: int, earlier: int)
    requires |a| > 0 && |b| > 0 && a[0] == b[0]
    ensures IsCacheDataFresh(a, now) == IsCacheDataFresh(b, now)
    ensures earlier <= now && IsCacheDataFresh(a, now) ==> IsCacheDataFresh(a, earlier)
    ensures IsSingleStockCacheFresh(a[0], now) ==> IsCacheDataFresh(a, now)
    ensures !IsCacheDataFresh([], now)
  {
  }

  // ---------------------------------------------------------------------------
  // The cache

  datatype CacheValue = AllValue(list: seq<HAStockData>) | PairValue(data: HAStockData)

  datatype CacheEntry = CacheEntry(value: CacheValue, expiresAt: int)

  /** Which store operations fail: a failed read is a miss, a failed write or delete leaves
      the store as it was. */
  datatype Faults = Faults(
    readFails: string -> bool,
    writeFails: string -> bool,
    deleteFails: string -> bool,
    pipelineFails: bool)

  /** A pipeline fails only when it holds a command: an empty one sends nothing to the
      server and so cannot fail. */
  predicate PipelineFails(items: map<string, CacheValue>, faults: Faults) {
    faults.pipelineFails && |items| > 0
  }

  /** The value under `key` at instant `now`, if it has not expired. */
  function Lookup(entries: map<string, CacheEntry>, key: string, now: int): Option<CacheValue> {
    if key in entries && now < entries[key].expiresAt then Some(entries[key].value) else None
  }

  /** The store after a SET with a lifetime, unless the write fails. */
  function Written(entries: map<string, CacheEntry>, key: string, value: CacheValue, ttl: int, now: int, fails: bool)
    : map<string, CacheEntry>
  {
    if fails then entries else entries[key := CacheEntry(value, now + ttl)]
  }

  /** The store after a pipeline of SETs, all with the same lifetime. */
  function WrittenMany(entries: map<string, CacheEntry>, items: map<string, CacheValue>, ttl: int, now: int)
    : map<string, CacheEntry>
  {
    map k | k in entries.Keys + items.Keys :: if k in items then CacheEntry(items[k], now + ttl) else entries[k]
  }

  /** A SET that succeeds replaces the one key's entry; one that fails changes nothing. */
  lemma WrittenCases(entries: map<string, CacheEntry>, key: string, value: CacheValue, ttl: int, now: int,
                     fails: bool)
    ensures Written(entries, key, value, ttl, now, fails)
            == if fails then entries else entries[key := CacheEntry(value, now + ttl)]
  {
  }

  /** A written value reads back until it expires and not after; other keys are unaffected. */
  lemma ReadAfterWrite(entries: map<string, CacheEntry>, key: string, other: string, value: CacheValue,
                       ttl: int, now: int, later: int)
    requires other != key
    ensures Lookup(Written(entries, key, value, ttl, now, false), key, later)
            == if later < now + ttl then Some(value) else None
    ensures Lookup(Written(entries, key, value, ttl, now, false), other, later) == Lookup(entries, other, later)
    ensures Written(entries, key, value, ttl, now, true) == entries
  {
  }

  class CacheStore {
    var entries: map<string, CacheEntry>

    constructor ()
      ensures entries == map[]
    {
      entries := map[];
    }

    /** GetStockData: a read failure, a missing key and an expired key all read as nothing. */
    method Get(key: string, now: int, faults: Faults) returns (v: Option<CacheValue>)
      ensures v == if faults.readFails(key) then None else Lookup(entries, key, now)
    {
      if faults.readFails(key) {
        return None;
      }
      v := Lookup(entries, key, now);
    }

    /** SetStockData. */
    method Set(key: string, value: CacheValue, ttl: int, now: int, faults: Faults) returns (ok: bool)
      modifies this
      ensures ok == !faults.writeFails(key)
      ensures entries == Written(old(entries), key, value, ttl, now, faults.writeFails(key))
    {
      ok := !faults.writeFails(key);
      if ok {
        entries := entries[key := CacheEntry(value, now + ttl)];
      }
    }

    /** SetMultipleStockData: one pipeline; when it fails, nothing is written. */
    method SetMany(items: map<string, CacheValue>, ttl: int, now: int, faults: Faults) returns (ok: bool)
      modifies this
      ensures ok == !PipelineFails(items, faults)
      ensures entries == if ok then WrittenMany(old(entries), items, ttl, now) else old(entries)
    {
      ok := !PipelineFails(items, faults);
      if ok {
        entries := WrittenMany(entries, items, ttl, now);
      }
    }

    /** DeleteStockData. */
    method Delete(key: string, faults: Faults) returns (ok: bool)
      modifies this
      ensures ok == !faults.deleteFails(key)
      ensures entries == if ok then old(entries) - {key} else old(entries)
    {
      ok := !faults.deleteFails(key);
      if ok {
        entries := entries - {key};
      }
    }
  }

  // ---------------------------------------------------------------------------
  // The service operations, as functions of the store before the call

  /** What an operation returns, and the store it leaves. */
  datatype After<T> = After(result: T, entries: map<string, CacheEntry>)

  /** The cached aggregate, when it can be read, is a non-empty list, and is fresh. */
  function CachedList(entries: map<string, CacheEntry>, now: int, readOk: bool): Option<seq<HAStockData>> {
    if !readOk then None
    else
      match Lookup(entries, AllKey, now)
      case Some(AllValue(list)) => if |list| > 0 && IsCacheDataFresh(list, now) then Some(list) else None
      case _ => None
  }

  /** The cached pair under the name's key, when it can be read and is fresh. */
  function CachedPair(entries: map<string, CacheEntry>, stockName: string, now: int, readOk: bool): Option<HAStockData> {
    if !readOk then None
    else
      match Lookup(entries, PairKey(stockName), now)
      case Some(PairValue(d)) => if IsSingleStockCacheFresh(d, now) then Some(d) else None
      case _ => None
  }

  /** GetAllHAStockData. */
  function GetAll(m: Manager, entries: map<string, CacheEntry>, env: Env, repo: Repository, faults: Faults)
    : After<Result<seq<HAStockData>, Error>>
    reads m
  {
    match CachedList(entries, env.now, !faults.readFails(AllKey))
    case Some(list) => After(Ok(list), entries)
    case None =>
      match repo.all
      case Err(e) => After(Err(PairsUnavailable(e)), entries)
      case Ok(pairs) =>
        var results := Fetched(m, env, pairs, false);
        if |results| > 0 then
          After(Ok(results), Written(entries, AllKey, AllValue(results), ListTtl, env.now, faults.writeFails(AllKey)))
        else After(Ok(results), entries)
  }

  /** GetHAStockDataByName. */
  function GetByName(m: Manager, entries: map<string, CacheEntry>, env: Env, repo: Repository, stockName: string,
                     faults: Faults): After<Result<HAStockData, Error>>
    reads m
  {
    var key := PairKey(stockName);
    match CachedPair(entries, stockName, env.now, !faults.readFails(key))
    case Some(d) => After(Ok(d), entries)
    case None =>
      match repo.byName(stockName)
      case Err(e) => After(Err(PairsUnavailable(e)), entries)
      case Ok(pair) =>
        match PairData(m, env, pair, false)
        case Err(e) => After(Err(e), entries)
        case Ok(d) => After(Ok(d), Written(entries, key, PairValue(d), SingleTtl, env.now, faults.writeFails(key)))
  }

  /** The per-name entries a refresh writes: the last entry of a name wins. */
  function DataMap(list: seq<HAStockData>): map<string, CacheValue> {
    if |list| == 0 then map[]
    else
      var last := list[|list| - 1];
      DataMap(list[..|list| - 1])[PairKey(last.stockName) := PairValue(last)]
  }

  /** The keys written are exactly the names' keys. */
  lemma {:induction false} DataMapKeys(list: seq<HAStockData>)
    ensures forall k :: k in DataMap(list) <==> exists j :: 0 <= j < |list| && k == PairKey(list[j].stockName)
    decreases |list|
  {
    if |list| > 0 {
      var init := list[..|list| - 1];
      var last := list[|list| - 1];
      DataMapKeys(init);
      forall k ensures k in DataMap(list) <==> exists j :: 0 <= j < |list| && k == PairKey(list[j].stockName) {
        if k == PairKey(last.stockName) {
          assert k == PairKey(list[|list| - 1].stockName);
        } else {
          if k in DataMap(init) {
            var j :| 0 <= j < |init| && k == PairKey(init[j].stockName);
            assert list[j] == init[j];
          }
          if exists j :: 0 <= j < |list| && k == PairKey(list[j].stockName) {
            var j :| 0 <= j < |list| && k == PairKey(list[j].stockName);
            assert j < |init| && init[j] == list[j];
          }
        }
      }
    }
  }

  /** The entry of a name is its last occurrence in the list. */
  lemma {:induction false} DataMapLastWins(list: seq<HAStockData>, i: nat)
    requires i < |list|
    requires forall j :: i < j < |list| ==> list[j].stockName != list[i].stockName
    ensures PairKey(list[i].stockName) in DataMap(list)
    ensures DataMap(list)[PairKey(list[i].stockName)] == PairValue(list[i])
    decreases |list|
  {
    var init := list[..|list| - 1];
    var last := list[|list| - 1];
    if i < |init| {
      assert forall j :: 0 <= j < |init| ==> init[j] == list[j];
      DataMapLastWins(init, i);
      PairKeys(last.stockName, list[i].stockName);
    }
  }

  /** The aggregate key is never among the per-name keys. */
  lemma {:induction false} DataMapNoAllKey(list: seq<HAStockData>)
    ensures AllKey !in DataMap(list)
    decreases |list|
  {
    if |list| > 0 {
      DataMapNoAllKey(list[..|list| - 1]);
      PairKeys(list[|list| - 1].stockName, "");
    }
  }

  /** The batch map is empty exactly when the list is. */
  lemma DataMapEmpty(list: seq<HAStockData>)
    ensures |DataMap(list)| == 0 <==> |list| == 0
  {
    if |list| > 0 {
      DataMapKeys(list);
      assert PairKey(list[0].stockName) in DataMap(list);
    }
  }

  /** The store a successful refresh leaves: every per-name entry, then the aggregate, all
      with the refresh's lifetime. */
  function Refreshed(entries: map<string, CacheEntry>, list: seq<HAStockData>, ttl: int, now: int)
    : map<string, CacheEntry>
  {
    Written(WrittenMany(entries, DataMap(list), ttl, now), AllKey, AllValue(list), ttl, now, false)
  }

  /** After a refresh the aggregate holds the list, the keys are the old ones plus the
      aggregate and the listed names' keys, and every other entry is as it was. */
  lemma RefreshedKeys(entries: map<string, CacheEntry>, list: seq<HAStockData>, ttl: int, now: int)
    ensures Refreshed(entries, list, ttl, now)[AllKey] == CacheEntry(AllValue(list), now + ttl)
    ensures forall k :: k in Refreshed(entries, list, ttl, now) <==>
              k in entries || k == AllKey || exists j :: 0 <= j < |list| && k == PairKey(list[j].stockName)
    ensures forall k :: k in entries && k != AllKey && k !in DataMap(list) ==>
              Refreshed(entries, list, ttl, now)[k] == entries[k]
  {
    DataMapKeys(list);
  }

  /** Each listed name's key carries the refresh's lifetime and the last entry of that name. */
  lemma RefreshedName(entries: map<string, CacheEntry>, list: seq<HAStockData>, ttl: int, now: int, i: nat)
    requires i < |list|
    ensures PairKey(list[i].stockName) in Refreshed(entries, list, ttl, now)
    ensures Refreshed(entries, list, ttl, now)[PairKey(list[i].stockName)].expiresAt == now + ttl
    ensures (forall j :: i < j < |list| ==> list[j].stockName != list[i].stockName) ==>
              Refreshed(entries, list, ttl, now)[PairKey(list[i].stockName)].value == PairValue(list[i])
  {
    DataMapKeys(list);
    PairKeys(list[i].stockName, "");
    if forall j :: i < j < |list| ==> list[j].stockName != list[i].stockName {
      DataMapLastWins(list, i);
    }
  }

  /** The rewrite that ends both refreshes: one pipeline of per-name SETs, then the SET of
      the aggregate, both with the same lifetime; the first failure ends it. */
  function Rewrite(entries: map<string, CacheEntry>, list: seq<HAStockData>, ttl: int, now: int, faults: Faults)
    : After<Result<(), Error>>
  {
    if PipelineFails(DataMap(list), faults) then After(Err(BatchCacheWriteFailed), entries)
    else if faults.writeFails(AllKey) then After(Err(AllCacheWriteFailed), WrittenMany(entries, DataMap(list), ttl, now))
    else After(Ok(()), Refreshed(entries, list, ttl, now))
  }

  /** RefreshAllHAStockData: read through GetAllHAStockData, then rewrite every entry and the
      aggregate with the longer lifetime. The read-through's store calls fail as `faults`
      says and the rewrite's as `writeFaults` says, so the aggregate SET of a missed
      read-through and the closing aggregate SET fail independently. */
  function Refresh(m: Manager, entries: map<string, CacheEntry>, env: Env, repo: Repository, faults: Faults,
                   writeFaults: Faults): After<Result<(), Error>>
    reads m
  {
    var all := GetAll(m, entries, env, repo, faults);
    match all.result
    case Err(e) => After(Err(RefreshFailed(e)), all.entries)
    case Ok(list) => Rewrite(all.entries, list, RefreshTtl, env.now, writeFaults)
  }

  /** ForceRefreshAllHAStockData: no cache read; nothing fetched is an error. */
  function ForceRefresh(m: Manager, entries: map<string, CacheEntry>, env: Env, repo: Repository, faults: Faults)
    : After<Result<(), Error>>
    reads m
  {
    match repo.all
    case Err(e) => After(Err(PairsUnavailable(e)), entries)
    case Ok(pairs) =>
      var results := Fetched(m, env, pairs, false);
      if |results| == 0 then After(Err(NoDataFetched), entries)
      else Rewrite(entries, results, ForceRefreshTtl, env.now, faults)
  }

  /** ClearCache. */
  function ClearOne(entries: map<string, CacheEntry>, stockName: string, faults: Faults): After<Result<(), Error>> {
    var key := PairKey(stockName);
    if faults.deleteFails(key) then After(Err(CacheDeleteFailed(key)), entries)
    else After(Ok(()), entries - {key})
  }

  /** The per-name deletes of ClearAllCache, in catalogue order, each failure ignored. */
  function DeletedPairs(entries: map<string, CacheEntry>, pairs: seq<StockPair>, faults: Faults)
    : map<string, CacheEntry>
  {
    if |pairs| == 0 then entries
    else
      var key := PairKey(pairs[|pairs| - 1].stockName);
      var prior := DeletedPairs(entries, pairs[..|pairs| - 1], faults);
      if faults.deleteFails(key) then prior else prior - {key}
  }

  /** A key survives the deletes exactly when it is not a pair's key whose delete succeeds;
      survivors keep their values. */
  lemma {:induction false} DeletedPairsContents(entries: map<string, CacheEntry>, pairs: seq<StockPair>, faults: Faults)
    ensures forall k :: k in DeletedPairs(entries, pairs, faults) <==>
              k in entries && !(!faults.deleteFails(k) && exists i :: 0 <= i < |pairs| && k == PairKey(pairs[i].stockName))
    ensures forall k :: k in DeletedPairs(entries, pairs, faults) ==> DeletedPairs(entries, pairs, faults)[k] == entries[k]
    decreases |pairs|
  {
    if |pairs| > 0 {
      var init := pairs[..|pairs| - 1];
      DeletedPairsContents(entries, init, faults);
      assert forall i :: 0 <= i < |init| ==> init[i] == pairs[i];
    }
  }

  /** ClearAllCache: the aggregate first (its failure is an error), then the catalogue (its
      failure is an error), then every name's key with failures ignored. */
  function ClearAll(entries: map<string, CacheEntry>, repo: Repository, faults: Faults): After<Result<(), Error>> {
    if faults.deleteFails(AllKey) then After(Err(AllCacheDeleteFailed), entries)
    else
      var cleared := entries - {AllKey};
      match repo.all
      case Err(e) => After(Err(PairsUnavailable(e)), cleared)
      case Ok(pairs) => After(Ok(()), DeletedPairs(cleared, pairs, faults))
  }

  /** GetAllHAStockDataRealTime: no cache at all. */
  function GetAllRealTime(m: Manager, env: Env, repo: Repository): Result<seq<HAStockData>, Error>
    reads m
  {
    match repo.all
    case Err(e) => Err(PairsUnavailable(e))
    case Ok(pairs) => Ok(Fetched(m, env, pairs, true))
  }

  /** GetHAStockDataByNameRealTime: no cache at all. */
  function GetByNameRealTime(m: Manager, env: Env, repo: Repository, stockName: string): Result<HAStockData, Error>
    reads m
  {
    match repo.byName(stockName)
    case Err(e) => Err(PairsUnavailable(e))
    case Ok(pair) => PairData(m, env, pair, true)
  }

  // ---------------------------------------------------------------------------
  // Properties of the operations

  /** A fresh cached aggregate is returned as it is, whatever the repository and the vendors
      would answer, and the store is left alone. */
  lemma CacheHitIgnoresSources(m: Manager, entries: map<string, CacheEntry>, env: Env, env2: Env,
                               repo: Repository, repo2: Repository, faults: Faults)
    requires env2.now == env.now
    requires CachedList(entries, env.now, !faults.readFails(AllKey)).Some?
    ensures GetAll(m, entries, env, repo, faults) == GetAll(m, entries, env2, repo2, faults)
    ensures GetAll(m, entries, env, repo, faults).result == Ok(CachedList(entries, env.now, true).value)
    ensures GetAll(m, entries, env, repo, faults).entries == entries
  {
  }

  /** GetAllHAStockData fails only when the cache misses and the catalogue cannot be read; in
      particular it succeeds, with nothing cached, when every pair fails. */
  lemma GetAllErrors(m: Manager, entries: map<string, CacheEntry>, env: Env, repo: Repository, faults: Faults)
    ensures GetAll(m, entries, env, repo, faults).result.Err? <==>
              CachedList(entries, env.now, !faults.readFails(AllKey)).None? && repo.all.Err?
    ensures CachedList(entries, env.now, !faults.readFails(AllKey)).None? && repo.all.Ok?
            && (forall i :: 0 <= i < |repo.all.value| ==> PairData(m, env, repo.all.value[i], false).Err?) ==>
              GetAll(m, entries, env, repo, faults) == After(Ok([]), entries)
  {
    if CachedList(entries, env.now, !faults.readFails(AllKey)).None? && repo.all.Ok? {
      FetchedExtremes(m, env, repo.all.value, false);
    }
  }

  /** Store failures on writes never change what the read paths return. */
  lemma WriteFailuresInvisible(m: Manager, entries: map<string, CacheEntry>, env: Env, repo: Repository,
                               stockName: string, faults: Faults, faults2: Faults)
    requires forall k :: faults.readFails(k) == faults2.readFails(k)
    ensures GetAll(m, entries, env, repo, faults).result == GetAll(m, entries, env, repo, faults2).result
    ensures GetByName(m, entries, env, repo, stockName, faults).result
            == GetByName(m, entries, env, repo, stockName, faults2).result
  {
  }

  /** Cache-aside round trip: what a missed GetAllHAStockData fetched and stored is served by
      the next call from the store, without the repository, while it is fresh. */
  lemma GetAllRoundTrip(m: Manager, entries: map<string, CacheEntry>, env: Env, later: Env, repo: Repository,
                        repo2: Repository, faults: Faults)
    requires CachedList(entries, env.now, !faults.readFails(AllKey)).None? && repo.all.Ok?
    requires |Fetched(m, env, repo.all.value, false)| > 0
    requires !faults.writeFails(AllKey) && !faults.readFails(AllKey)
    requires later.now < env.now + ListTtl && IsCacheDataFresh(Fetched(m, env, repo.all.value, false), later.now)
    ensures GetAll(m, GetAll(m, entries, env, repo, faults).entries, later, repo2, faults)
            == After(GetAll(m, entries, env, repo, faults).result, GetAll(m, entries, env, repo, faults).entries)
  {
  }

  /** By name, the cached pair is served while its lead time is within the single-pair
      window; a failed pair is an error and is not stored. */
  lemma GetByNameCases(m: Manager, entries: map<string, CacheEntry>, env: Env, repo: Repository, stockName: string,
                       faults: Faults)
    ensures CachedPair(entries, stockName, env.now, !faults.readFails(PairKey(stockName))).Some? ==>
              GetByName(m, entries, env, repo, stockName, faults)
              == After(Ok(CachedPair(entries, stockName, env.now, true).value), entries)
    ensures CachedPair(entries, stockName, env.now, !faults.readFails(PairKey(stockName))).None? && repo.byName(stockName).Ok?
            && PairData(m, env, repo.byName(stockName).value, false).Err? ==>
              GetByName(m, entries, env, repo, stockName, faults)
              == After(Err(PairData(m, env, repo.byName(stockName).value, false).error), entries)
    ensures GetByName(m, entries, env, repo, stockName, faults).entries != entries ==>
              GetByName(m, entries, env, repo, stockName, faults).result.Ok?
              && GetByName(m, entries, env, repo, stockName, faults).entries.Keys == entries.Keys + {PairKey(stockName)}
  {
  }

  /** A missed lookup that fetches its pair returns it and, unless the write fails, stores it
      under the name's key with the two-minute lifetime, every other entry staying as it was. */
  lemma GetByNameStores(m: Manager, entries: map<string, CacheEntry>, env: Env, repo: Repository, stockName: string,
                        faults: Faults, pair: StockPair, d: HAStockData)
    requires CachedPair(entries, stockName, env.now, !faults.readFails(PairKey(stockName))).None?
    requires repo.byName(stockName) == Ok(pair) && PairData(m, env, pair, false) == Ok(d)
    ensures GetByName(m, entries, env, repo, stockName, faults)
            == After(Ok(d), if faults.writeFails(PairKey(stockName)) then entries
                            else entries[PairKey(stockName) := CacheEntry(PairValue(d), env.now + SingleTtl)])
  {
    WrittenCases(entries, PairKey(stockName), PairValue(d), SingleTtl, env.now, faults.writeFails(PairKey(stockName)));
  }

  /** Cache-aside round trip by name: what a missed lookup fetched and stored is served by
      the next lookup from the store, without the repository, while it is fresh. */
  lemma GetByNameRoundTrip(m: Manager, entries: map<string, CacheEntry>, env: Env, later: Env, repo: Repository,
                           repo2: Repository, stockName: string, faults: Faults, pair: StockPair, d: HAStockData)
    requires CachedPair(entries, stockName, env.now, !faults.readFails(PairKey(stockName))).None?
    requires repo.byName(stockName) == Ok(pair) && PairData(m, env, pair, false) == Ok(d)
    requires !faults.writeFails(PairKey(stockName)) && !faults.readFails(PairKey(stockName))
    requires later.now < env.now + SingleTtl && IsSingleStockCacheFresh(d, later.now)
    ensures GetByName(m, GetByName(m, entries, env, repo, stockName, faults).entries, later, repo2, stockName, faults)
            == After(Ok(d), GetByName(m, entries, env, repo, stockName, faults).entries)
  {
    GetByNameStores(m, entries, env, repo, stockName, faults, pair, d);
    var stored := entries[PairKey(stockName) := CacheEntry(PairValue(d), env.now + SingleTtl)];
    assert Lookup(stored, PairKey(stockName), later.now) == Some(PairValue(d));
    assert CachedPair(stored, stockName, later.now, true) == Some(d);
  }

  /** A forced refresh with nothing to store is an error that leaves the store alone; a
      successful one leaves the store RefreshedStore describes for the fetched list and the
      two-minute lifetime. */
  lemma ForceRefreshEffect(m: Manager, entries: map<string, CacheEntry>, env: Env, repo: Repository, faults: Faults)
    ensures ForceRefresh(m, entries, env, repo, faults).result == Err(NoDataFetched) <==>
              repo.all.Ok? && Fetched(m, env, repo.all.value, false) == []
    ensures ForceRefresh(m, entries, env, repo, faults).result == Err(NoDataFetched) ==>
              ForceRefresh(m, entries, env, repo, faults).entries == entries
    ensures ForceRefresh(m, entries, env, repo, faults).result.Ok? <==>
              repo.all.Ok? && |Fetched(m, env, repo.all.value, false)| > 0 && !faults.pipelineFails && !faults.writeFails(AllKey)
    ensures ForceRefresh(m, entries, env, repo, faults).result.Ok? ==>
              ForceRefresh(m, entries, env, repo, faults).entries
              == Refreshed(entries, Fetched(m, env, repo.all.value, false), ForceRefreshTtl, env.now)
  {
    if repo.all.Ok? {
      DataMapEmpty(Fetched(m, env, repo.all.value, false));
    }
  }

  /** A successful refresh stores, with the five-minute lifetime, the very list
      GetAllHAStockData returned. An empty list makes an empty pipeline, which cannot fail,
      so the aggregate is then still rewritten with the empty list. */
  lemma RefreshEffect(m: Manager, entries: map<string, CacheEntry>, env: Env, repo: Repository, faults: Faults,
                      writeFaults: Faults)
    ensures Refresh(m, entries, env, repo, faults, writeFaults).result.Ok? <==>
              GetAll(m, entries, env, repo, faults).result.Ok?
              && !(writeFaults.pipelineFails && |GetAll(m, entries, env, repo, faults).result.value| > 0)
              && !writeFaults.writeFails(AllKey)
    ensures Refresh(m, entries, env, repo, faults, writeFaults).result.Ok? ==>
              var list := GetAll(m, entries, env, repo, faults).result.value;
              Refresh(m, entries, env, repo, faults, writeFaults).entries
              == Refreshed(GetAll(m, entries, env, repo, faults).entries, list, RefreshTtl, env.now)
  {
    if GetAll(m, entries, env, repo, faults).result.Ok? {
      DataMapEmpty(GetAll(m, entries, env, repo, faults).result.value);
    }
  }

  /** When only the closing aggregate SET of a refresh fails, the per-name entries are
      rewritten and `ha_stocks:all` keeps whatever the read-through left there, which after
      a miss is the freshly fetched list with the two-minute lifetime. */
  lemma RefreshAggregateWriteFails(m: Manager, entries: map<string, CacheEntry>, env: Env, repo: Repository,
                                   faults: Faults, writeFaults: Faults)
    ensures Refresh(m, entries, env, repo, faults, writeFaults).result == Err(AllCacheWriteFailed) <==>
              GetAll(m, entries, env, repo, faults).result.Ok?
              && !PipelineFails(DataMap(GetAll(m, entries, env, repo, faults).result.value), writeFaults)
              && writeFaults.writeFails(AllKey)
    ensures GetAll(m, entries, env, repo, faults).result.Ok?
            && Refresh(m, entries, env, repo, faults, writeFaults).result == Err(AllCacheWriteFailed) ==>
              var before := GetAll(m, entries, env, repo, faults).entries;
              var after := Refresh(m, entries, env, repo, faults, writeFaults).entries;
              after == WrittenMany(before, DataMap(GetAll(m, entries, env, repo, faults).result.value), RefreshTtl, env.now)
              && (AllKey in after <==> AllKey in before)
              && (AllKey in before ==> after[AllKey] == before[AllKey])
  {
    if GetAll(m, entries, env, repo, faults).result.Ok? {
      DataMapNoAllKey(GetAll(m, entries, env, repo, faults).result.value);
    }
  }

  /** A successful ClearAllCache removes the aggregate and every catalogue name's key whose
      delete succeeds, and keeps every other entry as it was. */
  lemma ClearAllEffect(entries: map<string, CacheEntry>, repo: Repository, faults: Faults)
    ensures ClearAll(entries, repo, faults).result.Ok? <==> !faults.deleteFails(AllKey) && repo.all.Ok?
    ensures ClearAll(entries, repo, faults).result.Ok? ==>
              var after := ClearAll(entries, repo, faults).entries;
              AllKey !in after
              && (forall i :: 0 <= i < |repo.all.value| && !faults.deleteFails(PairKey(repo.all.value[i].stockName)) ==>
                    PairKey(repo.all.value[i].stockName) !in after)
              && (forall k :: k in after ==> k in entries && after[k] == entries[k])
              && (forall k :: k in entries && k != AllKey && (forall i :: 0 <= i < |repo.all.value| ==> k != PairKey(repo.all.value[i].stockName))
                    ==> k in after)
  {
    if !faults.deleteFails(AllKey) && repo.all.Ok? {
      DeletedPairsContents(entries - {AllKey}, repo.all.value, faults);
    }
  }

  // ---------------------------------------------------------------------------
  // The service

  class HAStockService {
    const crawlers: Manager
    const cache: CacheStore

    constructor (crawlers: Manager, cache: CacheStore)
      ensures this.crawlers == crawlers && this.cache == cache
    {
      this.crawlers := crawlers;
      this.cache := cache;
    }

    /** getHAStockDataByPair (and its RealTime form), one leg after the other. */
    method GetPairData(env: Env, pair: StockPair, realTime: bool) returns (r: Result<HAStockData, Error>)
      ensures r == PairData(crawlers, env, pair, realTime)
    {
      var aStockCode := ConvertStockCode(pair.aStockCode);
      var hStockCode := ConvertStockCode(pair.hStockCode);
      var a := StockDataFromSource(crawlers, env, aStockCode, "sina", realTime);
      var h := StockDataFromSource(crawlers, env, hStockCode, "tencent", realTime);
      var errors: seq<Error> := [];
      if a.Err? {
        errors := errors + [LegFailed(ALeg, a.error)];
      }
      if h.Err? {
        errors := errors + [LegFailed(HLeg, h.error)];
      }
      assert errors == LegErrors(a, h);
      if |errors| > 0 {
        return Err(PairFailed(errors));
      }
      return Ok(HAStockData(pair.stockName, pair.hStockCode, Some(h.value), pair.aStockCode, Some(a.value)));
    }

    /** The pair loop shared by the list operations: skip a failed pair and go on. */
    method FetchAll(env: Env, pairs: seq<StockPair>, realTime: bool) returns (results: seq<HAStockData>)
      ensures results == Fetched(crawlers, env, pairs, realTime)
    {
      results := [];
      for i := 0 to |pairs|
        invariant results == Fetched(crawlers, env, pairs[..i], realTime)
      {
        assert pairs[..i + 1][..i] == pairs[..i];
        var haData := GetPairData(env, pairs[i], realTime);
        if haData.Err? {
          continue;
        }
        results := results + [haData.value];
      }
      assert pairs[..|pairs|] == pairs;
    }

    /** The per-name map of a refresh. */
    method BuildDataMap(list: seq<HAStockData>) returns (dataMap: map<string, CacheValue>)
      ensures dataMap == DataMap(list)
    {
      dataMap := map[];
      for i := 0 to |list|
        invariant dataMap == DataMap(list[..i])
      {
        assert list[..i + 1][..i] == list[..i];
        dataMap := dataMap[PairKey(list[i].stockName) := PairValue(list[i])];
      }
      assert list[..|list|] == list;
    }

    method GetAllHAStockData(env: Env, repo: Repository, faults: Faults) returns (r: Result<seq<HAStockData>, Error>)
      modifies cache
      ensures r == GetAll(crawlers, old(cache.entries), env, repo, faults).result
      ensures cache.entries == GetAll(crawlers, old(cache.entries), env, repo, faults).entries
    {
      var cached := cache.Get(AllKey, env.now, faults);
      if cached.Some? && cached.value.AllValue? && |cached.value.list| > 0 {
        if IsCacheDataFresh(cached.value.list, env.now) {
          return Ok(cached.value.list);
        }
      }
      if repo.all.Err? {
        return Err(PairsUnavailable(repo.all.error));
      }
      var results := FetchAll(env, repo.all.value, false);
      if |results| > 0 {
        var _ := cache.Set(AllKey, AllValue(results), ListTtl, env.now, faults);
      }
      return Ok(results);
    }

    method GetHAStockDataByName(env: Env, repo: Repository, stockName: string, faults: Faults)
      returns (r: Result<HAStockData, Error>)
      modifies cache
      ensures r == GetByName(crawlers, old(cache.entries), env, repo, stockName, faults).result
      ensures cache.entries == GetByName(crawlers, old(cache.entries), env, repo, stockName, faults).entries
    {
      var cacheKey := PairKey(stockName);
      var cached := cache.Get(cacheKey, env.now, faults);
      if cached.Some? && cached.value.PairValue? {
        if IsSingleStockCacheFresh(cached.value.data, env.now) {
          return Ok(cached.value.data);
        }
      }
      var stockPair := repo.byName(stockName);
      if stockPair.Err? {
        return Err(PairsUnavailable(stockPair.error));
      }
      var result := GetPairData(env, stockPair.value, false);
      if result.Err? {
        return Err(result.error);
      }
      var _ := cache.Set(cacheKey, PairValue(result.value), SingleTtl, env.now, faults);
      return Ok(result.value);
    }

    /** The batch update of the per-name entries, then of the aggregate. */
    method StoreAll(list: seq<HAStockData>, ttl: int, now: int, faults: Faults) returns (r: Result<(), Error>)
      modifies cache
      ensures r == Rewrite(old(cache.entries), list, ttl, now, faults).result
      ensures cache.entries == Rewrite(old(cache.entries), list, ttl, now, faults).entries
    {
      var dataMap := BuildDataMap(list);
      var ok := cache.SetMany(dataMap, ttl, now, faults);
      if !ok {
        return Err(BatchCacheWriteFailed);
      }
      ok := cache.Set(AllKey, AllValue(list), ttl, now, faults);
      if !ok {
        return Err(AllCacheWriteFailed);
      }
      return Ok(());
    }

    method RefreshAllHAStockData(env: Env, repo: Repository, faults: Faults, writeFaults: Faults)
      returns (r: Result<(), Error>)
      modifies cache
      ensures r == Refresh(crawlers, old(cache.entries), env, repo, faults, writeFaults).result
      ensures cache.entries == Refresh(crawlers, old(cache.entries), env, repo, faults, writeFaults).entries
    {
      var list := GetAllHAStockData(env, repo, faults);
      if list.Err? {
        return Err(RefreshFailed(list.error));
      }
      r := StoreAll(list.value, RefreshTtl, env.now, writeFaults);
    }

    method ForceRefreshAllHAStockData(env: Env, repo: Repository, faults: Faults) returns (r: Result<(), Error>)
      modifies cache
      ensures r == ForceRefresh(crawlers, old(cache.entries), env, repo, faults).result
      ensures cache.entries == ForceRefresh(crawlers, old(cache.entries), env, repo, faults).entries
    {
      if repo.all.Err? {
        return Err(PairsUnavailable(repo.all.error));
      }
      var results := FetchAll(env, repo.all.value, false);
      if |results| == 0 {
        return Err(NoDataFetched);
      }
      r := StoreAll(results, ForceRefreshTtl, env.now, faults);
    }

    method ClearCache(stockName: string, faults: Faults) returns (r: Result<(), Error>)
      modifies cache
      ensures r == ClearOne(old(cache.entries), stockName, faults).result
      ensures cache.entries == ClearOne(old(cache.entries), stockName, faults).entries
    {
      var key := PairKey(stockName);
      var ok := cache.Delete(key, faults);
      if !ok {
        return Err(CacheDeleteFailed(key));
      }
      return Ok(());
    }

    method ClearAllCache(repo: Repository, faults: Faults) returns (r: Result<(), Error>)
      modifies cache
      ensures r == ClearAll(old(cache.entries), repo, faults).result
      ensures cache.entries == ClearAll(old(cache.entries), repo, faults).entries
    {
      var ok := cache.Delete(AllKey, faults);
      if !ok {
        return Err(AllCacheDeleteFailed);
      }
      if repo.all.Err? {
        return Err(PairsUnavailable(repo.all.error));
      }
      var pairs := repo.all.value;
      ghost var cleared := cache.entries;
      for i := 0 to |pairs|
        invariant cache.entries == DeletedPairs(cleared, pairs[..i], faults)
      {
        assert pairs[..i + 1][..i] == pairs[..i];
        var _ := cache.Delete(PairKey(pairs[i].stockName), faults);
      }
      assert pairs[..|pairs|] == pairs;
      return Ok(());
    }

    method GetAllHAStockDataRealTime(env: Env, repo: Repository) returns (r: Result<seq<HAStockData>, Error>)
      ensures r == GetAllRealTime(crawlers, env, repo)
    {
      if repo.all.Err? {
        return Err(PairsUnavailable(repo.all.error));
      }
      var results := FetchAll(env, repo.all.value, true);
      return Ok(results);
    }

    method GetHAStockDataByNameRealTime(env: Env, repo: Repository, stockName: string) returns (r: Result<HAStockData, Error>)
      ensures r == GetByNameRealTime(crawlers, env, repo, stockName)
    {
      var stockPair := repo.byName(stockName);
      if stockPair.Err? {
        return Err(PairsUnavailable(stockPair.error));
      }
      r := GetPairData(env, stockPair.value, true);
    }
  }
}
