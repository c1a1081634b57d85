# Quote aggregation core of D_come, in Dafny

This project models the part of D_come that turns stock codes into quotes:

- **Code normalisation.** `StockCodeConverter` parses codes such as `SH601038` and converts
  them for a vendor. `CrawlerInput.Normalize` swaps dotted codes. `convertStockCode` turns a
  catalogue code such as `601038.SH` into `sh601038`. The legacy Python `parse_stock_code`
  does the same job with its own rules.
- **Vendor routing.** `CrawlerService.selectSource` picks a vendor for a region. The crawler
  manager keeps a registry of crawlers. It routes a single code by its two-character prefix
  and splits a batch into a Sina group and a Tencent group.
- **The two vendor parsers.**
  - Sina lines have the form `var hq_str_<code>="f0,f1,...";`.
  - Tencent lines are `~`-separated. Volume and turnover are probed over several candidate
    fields. The change fields have a fallback computation. The time field is read with a
    primary layout and then fallback layouts.
  - Both crawlers pair batch lines with codes by position.
  - The Python scripts `stock_data.py` and `test_sina_api.py` have their own inline
    versions of these parsers. Both scripts fill a result dict line by line.
- **The H-A pair service.** Each catalogue pair is fetched as an A-share leg from Sina and an
  H-share leg from Tencent, and the two legs are joined. The service keeps results in a
  cache-aside store with expiry. It judges freshness from the quotes' own update times. It
  also refreshes, force-refreshes and invalidates the store.

Code that works by steps is modelled as methods: the parsers, the probing loops, the grouping
and conversion loops, the pair loops and the Python line loops. Each method is proved equal to
a specification function. The properties of the source are proved as lemmas about those
functions.

Three kinds of state are modelled as classes:
- the crawler registry (`CrawlerManager.Manager`);
- the cache store (`HAStock.CacheStore`);
- the fields that `Normalize` rewrites (`StockConverter.CrawlerInput`).

The outside world is passed in as parameters:
- `Quotes.Env` holds an HTTP oracle, number parsers that stand for `strconv.ParseFloat`
  and `ParseInt`, a time-layout parser that stands for `time.Parse`, and the current instant.
- `PyRuntime.PyEnv` holds `requests.get` (which may raise), `float()`/`int()`, and the
  current date and time as strftime prints them.
- Store failures are a `Faults` value: which keys' reads, writes and deletes fail, and whether a pipeline fails. A refresh takes two: one for its read-through of the aggregate, one for its rewrite.
- The stock repository is a `Repository` value.

Modules, one file each: `Wrappers`, `Text` (string helpers), `Quotes` (records, errors,
oracles, shared field readers), `StockConverter`, `Sina`, `Tencent`, `CrawlerManager`,
`CrawlerService`, `HAStock`, `PyRuntime`, `LegacyFetcher` (stock_data.py) and `SinaApiProbe`
(test_sina_api.py).

Notes on the code's behaviour, all of them modelled as written:
- `convertStockCode` uses only the first dot and accepts only the exact upper-case markets
  `SH`, `SZ` and `HK`. It does not lower-case an arbitrary suffix.
- The organic refresh writes with a 5-minute lifetime and the forced refresh with a 2-minute
  one.
- The Sina fetch does not check the HTTP status. The Tencent batch fetch does not check the
  status either; only the single Tencent fetch does.
- The Tencent fallback layout list repeats the primary layout, so that entry can never match.

## Model

| member | source | states |
|---|---|---|
| StockConverter.ParseStockCode | backend/internal/application/stock_converter.go:47-60 | succeeds exactly when the lower-cased code is ASCII letters followed by ASCII digits. On success, region + number is the lower-cased code, the region is all letters and the number all digits. The error names the input code |
| StockConverter.LetterRunShape | backend/internal/application/stock_converter.go:49-50 | the regular-expression shape holds exactly when the maximal leading letter run is non-empty, does not cover the whole code, and is followed only by digits |
| StockConverter.IsValidStockCode | backend/internal/application/stock_converter.go:114-118 | true exactly when the code has the letters-then-digits shape, that is, when ParseStockCode succeeds |
| StockConverter.FormatTables | backend/internal/application/stock_converter.go:22-44 | both vendors' tables have three entries. Their lower-cased names are hk, sh and sz in that order, and each entry's format puts its own region in front of the number |
| StockConverter.FindField | backend/internal/application/stock_converter.go:83-92 | finds the first table entry whose lower-cased name is the region, and only that one. None means no entry matches |
| StockConverter.ConvertUsingTable | backend/internal/application/stock_converter.go:77-95 | the field-scanning loop returns the region's format applied to the number, or an unsupported-region error when no field matches |
| StockConverter.ConvertForSource | backend/internal/application/stock_converter.go:62-75 | a parse error is propagated. An unknown source is an unsupported-source error. For a known source, a known region converts to the lower-cased code and any other region is an unsupported-region error |
| StockConverter.TwoLetterCodeParses | backend/internal/application/stock_converter.go:47-60 | two lower-case letters followed by a non-empty digit string parse back into exactly that region and number |
| StockConverter.KnownCodeConverts | backend/internal/application/stock_converter.go:23-34 | for region hk, sh or sz and either source, conversion returns region + number unchanged |
| StockConverter.BeijingCodeUnsupported | backend/internal/application/stock_converter.go:84-94 | bj600000 parses but fails conversion with an unsupported-region error naming bj |
| StockConverter.GetSupportedRegions | backend/internal/application/stock_converter.go:97-112 | a known source gives [hk, sh, sz] in field order; an unknown source gives the empty list |
| StockConverter.SwapDottedOneDot | backend/internal/application/stock_converter.go:133-136 | a value with exactly one dot becomes the part after the dot followed by the part before it, with case preserved |
| StockConverter.SwapDottedUnchanged | backend/internal/application/stock_converter.go:133-136 | a value without exactly one dot is left unchanged |
| StockConverter.CrawlerInput.constructor | backend/internal/application/stock_converter.go:120-124 | the three fields hold the given values |
| StockConverter.CrawlerInput.SetField | backend/internal/application/stock_converter.go:135 | sets one field by index and leaves the other two unchanged |
| StockConverter.CrawlerInput.Normalize | backend/internal/application/stock_converter.go:126-140 | the stock name is unchanged; each code field is replaced by its dot-swapped form |
| Quotes.FieldReal | backend/internal/infrastructure/crawler/sina_crawler.go:155-162 | the parsed number at the index, or 0 when the index is out of range or the text does not parse |
| Quotes.FieldInt | backend/internal/infrastructure/crawler/sina_crawler.go:164-171 | the parsed integer at the index, or 0 when the index is out of range or the text does not parse |
| Quotes.PctScale | backend/internal/infrastructure/crawler/sina_crawler.go:173-178 | for a non-zero previous close, the percentage times the previous close is 100 times the change; it is 0 for a zero previous close or no change |
| Quotes.FirstLayout | backend/internal/infrastructure/crawler/sina_crawler.go:130-139 | returns the first layout that parses the text: all earlier layouts fail. None means every layout fails |
| Quotes.ParseWithLayouts | backend/internal/infrastructure/crawler/sina_crawler.go:134-139 | the layout loop with early exit returns the instant of the first matching layout, or the default |
| Quotes.Collect | backend/internal/infrastructure/crawler/sina_crawler.go:66-72 | pairing lines with codes by position yields at most one quote per line looked at |
| Quotes.CollectBound | backend/internal/infrastructure/crawler/sina_crawler.go:66-67 | lines past the last code contribute nothing, so a batch has at most one quote per code |
| Quotes.CollectCodes | backend/internal/infrastructure/crawler/tencent_crawler.go:114-120 | when each parsed quote carries its own code, every batch quote carries a requested code |
| Quotes.CollectAll | backend/internal/infrastructure/crawler/sina_crawler.go:66-72 | when every line parses, the batch is exactly the per-line quotes in order |
| Sina.UpdateTimeCases | backend/internal/infrastructure/crawler/sina_crawler.go:120-141 | without non-blank fields 30 and 31, or when no layout matches, the time is now. Otherwise it is the instant of the first matching layout; the second layout is used only when the first fails |
| Sina.ParseLineCases | backend/internal/infrastructure/crawler/sina_crawler.go:100-153 | a line is rejected exactly when it has fewer than five fields, with an error giving the count. An accepted quote carries the requested code and field 0 as its name |
| Sina.ParseStockData | backend/internal/infrastructure/crawler/sina_crawler.go:100-153 | stripping, splitting, mapping the fields and the layout loop compute the specified line parse |
| Sina.LineFields | backend/internal/infrastructure/crawler/sina_crawler.go:101-109 | a well-formed vendor line gives back exactly the fields it was built from |
| Sina.LineRoundTrip | backend/internal/infrastructure/crawler/sina_crawler.go:100-153 | a well-formed line of at least five fields parses to the quote its fields describe, with field 0 as the name |
| Sina.UnknownCodeRejected | backend/internal/infrastructure/crawler/sina_crawler.go:110-112 | the vendor's empty answer for an unknown code is a one-field error |
| Sina.Fetch | backend/internal/infrastructure/crawler/sina_crawler.go:77-97 | returns the body whatever the status; a transport failure is propagated |
| Sina.GetStockData | backend/internal/infrastructure/crawler/sina_crawler.go:46-53 | fetches and parses one code. An accepted quote carries exactly the requested code |
| Sina.LineQuote | backend/internal/infrastructure/crawler/sina_crawler.go:67-70 | a batch line contributes a quote exactly when it is not blank and parses, and then exactly its parsed quote |
| Sina.ParseBatchLine | backend/internal/infrastructure/crawler/sina_crawler.go:67-71 | one step of the batch loop skips blank and unparsable lines |
| Sina.GetMultipleStockData | backend/internal/infrastructure/crawler/sina_crawler.go:55-74 | no codes means no request and no quotes. Otherwise line i is paired with code i, and the loop equals the specified batch |
| Sina.EntryOfLine | backend/internal/infrastructure/crawler/sina_crawler.go:67-70 | a well-formed line of at least five fields contributes its quote to a batch |
| Sina.BatchBound | backend/internal/infrastructure/crawler/sina_crawler.go:55-74 | a batch holds at most one quote per code, each for a requested code |
| Sina.WellFormedLines | backend/internal/infrastructure/crawler/sina_crawler.go:66-72 | lines built from codes and rows without separators hold no newline, and each yields its row's quote |
| Sina.BatchWellFormed | backend/internal/infrastructure/crawler/sina_crawler.go:55-74 | an answer of one well-formed line per code, whatever its status, yields exactly one quote per code, in order |
| Tencent.Content | backend/internal/infrastructure/crawler/tencent_crawler.go:128-134 | extracting the quoted payload fails only with the malformed-quote error |
| Tencent.ContentNeedsTwoQuotes | backend/internal/infrastructure/crawler/tencent_crawler.go:128-132 | the payload exists exactly when the data holds two double quotes at different positions |
| Tencent.QuotedContent | backend/internal/infrastructure/crawler/tencent_crawler.go:128-134 | the payload is exactly the text between the first and the last double quote |
| Tencent.LineContent | backend/internal/infrastructure/crawler/tencent_crawler.go:128-135 | the payload of a vendor line is its fields joined by `~` |
| Tencent.Probe | backend/internal/infrastructure/crawler/tencent_crawler.go:177-185 | finds the first candidate whose field exists and parses to a positive number. None means no candidate is usable |
| Tencent.ProbeValue | backend/internal/infrastructure/crawler/tencent_crawler.go:209-220 | a probed value is never negative (0 when no candidate is usable) |
| Tencent.Truncate | backend/internal/infrastructure/crawler/tencent_crawler.go:181 | the integer volume is the truncation of the probed non-negative number |
| Tencent.ChangeCases | backend/internal/infrastructure/crawler/tencent_crawler.go:188-206 | when field 31 or field 32 is non-zero, both are kept as read. When both are zero and there is no previous close, both stay 0. Otherwise they are price minus previous close and its percentage |
| Tencent.Today | backend/internal/infrastructure/crawler/tencent_crawler.go:241-244 | a time of day is placed on the day of now, keeping its clock time |
| Tencent.TimeField | backend/internal/infrastructure/crawler/tencent_crawler.go:224-226 | field 30 is used only when it exists and, trimmed, is neither empty nor "0" |
| Tencent.RepeatedLayoutNeverMatches | backend/internal/infrastructure/crawler/tencent_crawler.go:228-237 | when the primary layout fails, the fallback entry that repeats it never decides |
| Tencent.UpdateTimeCases | backend/internal/infrastructure/crawler/tencent_crawler.go:222-254 | without a usable field 30 the time is now. The primary layout wins when it parses. Otherwise the first matching fallback decides, the time-only layout giving a time on today's date, and now when none matches |
| Tencent.LineRoundTrip | backend/internal/infrastructure/crawler/tencent_crawler.go:126-269 | a well-formed line parses to the quote of its fields when it has at least ten, and is a field-count error otherwise |
| Tencent.ParsedQuote | backend/internal/infrastructure/crawler/tencent_crawler.go:126-269 | an accepted quote has at least ten fields, the requested code, the trimmed field 1 as its name, a volume that is the truncated probe over fields 6, 36, 28 and a turnover that is the probe over fields 37, 38 (each the first usable candidate, else 0), both non-negative |
| Tencent.ParseStockData | backend/internal/infrastructure/crawler/tencent_crawler.go:126-150 | payload extraction and the field-count check compute the specified parse |
| Tencent.ReadQuote | backend/internal/infrastructure/crawler/tencent_crawler.go:152-268 | the field readers, probe loops and change fallback build the specified quote |
| Tencent.ReadUpdateTime | backend/internal/infrastructure/crawler/tencent_crawler.go:222-254 | the time block computes the specified update time |
| Tencent.ProbeFields | backend/internal/infrastructure/crawler/tencent_crawler.go:175-186 | the probing loop with break returns the value of the first usable candidate, or 0 |
| Tencent.ParseFallbacks | backend/internal/infrastructure/crawler/tencent_crawler.go:232-251 | the fallback loop returns the first matching layout's time, with a time of day placed on today's date, or now |
| Tencent.StockData | backend/internal/infrastructure/crawler/tencent_crawler.go:35-77 | a transport failure, a status other than 200, and a body without a double quote are errors. Otherwise the body is parsed |
| Tencent.GetStockData | backend/internal/infrastructure/crawler/tencent_crawler.go:36-77 | the single fetch computes the specified result, for the plain and the real-time request alike |
| Tencent.ParseBatchLine | backend/internal/infrastructure/crawler/tencent_crawler.go:115-119 | one step of the batch loop skips blank and unparsable lines |
| Tencent.GetMultipleStockData | backend/internal/infrastructure/crawler/tencent_crawler.go:80-123 | no codes means no request. Otherwise the lines are paired with the codes by position, without a status check |
| Tencent.BatchBound | backend/internal/infrastructure/crawler/tencent_crawler.go:79-123 | a batch holds at most one quote per code, each carrying a requested code |
| Tencent.EntryOfLine | backend/internal/infrastructure/crawler/tencent_crawler.go:114-119 | a well-formed line of at least ten fields contributes exactly its fields' quote to a batch |
| Tencent.BatchWellFormed | backend/internal/infrastructure/crawler/tencent_crawler.go:80-123 | an answer of one well-formed line per code, whatever its status, yields exactly one quote per code, each its line's quote, in the order of the codes |
| Tencent.StatusCheckedOnlySingly | backend/internal/infrastructure/crawler/tencent_crawler.go:59-61 | a 500 answer is a bad-status error for the single fetch, while the batch fetch still succeeds on it |
| Tencent.RealTimeAgrees | backend/internal/infrastructure/crawler/tencent_crawler.go:271-317 | when the endpoint answers the no-cache request as it answers the plain one, the real-time calls return what the plain ones return |
| CrawlerManager.FetchBatchBound | backend/internal/infrastructure/crawler/manager.go:83 | either crawler's batch holds at most one quote per code, each for a requested code |
| CrawlerManager.CallBatch | backend/internal/infrastructure/crawler/manager.go:83 | issues the registered crawler's batch call |
| CrawlerManager.RouteCases | backend/internal/infrastructure/crawler/manager.go:32-46 | routing is Tencent exactly for an exact "hk" prefix and Sina otherwise. A batch code joins no group exactly when it is shorter than two characters, and otherwise joins its route's group |
| CrawlerManager.Group | backend/internal/infrastructure/crawler/manager.go:66-78 | a group is never longer than the input |
| CrawlerManager.GroupMembers | backend/internal/infrastructure/crawler/manager.go:66-78 | a code is in a group exactly when it is an input code that joins that group |
| CrawlerManager.GroupConcat | backend/internal/infrastructure/crawler/manager.go:66-78 | grouping keeps input order: the group of a concatenation is the concatenation of the groups |
| CrawlerManager.GroupSizes | backend/internal/infrastructure/crawler/manager.go:66-78 | the two groups together hold no more codes than the input, and all of them when no code is shorter than two characters |
| CrawlerManager.Manager.constructor | backend/internal/infrastructure/crawler/manager.go:14-24 | the registry holds exactly sina and tencent |
| CrawlerManager.Manager.RegisterCrawler | backend/internal/infrastructure/crawler/manager.go:27-29 | sets one entry and leaves the others unchanged |
| CrawlerManager.Manager.GetMultipleStockData | backend/internal/infrastructure/crawler/manager.go:59-101 | the batch is the Sina group's quotes followed by the Tencent group's. It never reports an error |
| CrawlerManager.Manager.Contribute | backend/internal/infrastructure/crawler/manager.go:81-98 | an empty group, a missing crawler or a failed call contributes nothing; otherwise the group contributes the crawler's quotes |
| CrawlerManager.Partition | backend/internal/infrastructure/crawler/manager.go:63-78 | the grouping loop builds exactly the two specified groups |
| CrawlerManager.DefaultRouting | backend/internal/infrastructure/crawler/manager.go:31-56 | with the default registry, an "hk" code is fetched from Tencent and every other code from Sina. An unregistered source is an error naming it |
| CrawlerManager.BatchCodes | backend/internal/infrastructure/crawler/manager.go:59-101 | a batch yields at most one quote per code, and only quotes for requested codes |
| CrawlerManager.GroupRoute | backend/internal/infrastructure/crawler/manager.go:66-78 | every grouped code is an input code that single-code routing sends to that group's source |
| CrawlerService.SelectSourceKnown | backend/internal/application/crawler_service.go:77-86 | the selected source is one the converter and the registry know, and it is Tencent exactly for region hk |
| CrawlerService.SelectThenConvert | backend/internal/application/crawler_service.go:26-38 | for regions hk, sh and sz, parsing, selecting and converting never fail. They yield the lower-cased code, which the manager's prefix routing sends to the same source |
| CrawlerService.StockDataCases | backend/internal/application/crawler_service.go:24-42 | a code that does not parse, or whose region has no conversion, is rejected before any fetch. Any other code is fetched as its lower-cased form |
| CrawlerService.StockDataFromSourceCases | backend/internal/application/crawler_service.go:45-52 | no source is chosen: a parse failure or an unknown source is a conversion error, and a known region is fetched from the caller's source |
| CrawlerService.ConvertedCases | backend/internal/application/crawler_service.go:58-71 | a batch code is kept exactly when it parses with a known region, as its lower-cased form, in the group of its selected source |
| CrawlerService.ConvertedCodes | backend/internal/application/crawler_service.go:58-71 | conversion never lengthens a batch |
| CrawlerService.ConvertedCodesConcat | backend/internal/application/crawler_service.go:58-71 | conversion keeps input order: it distributes over concatenation |
| CrawlerService.ConvertedCodesMembers | backend/internal/application/crawler_service.go:58-71 | every forwarded code is the lower-cased form of an input code of a known region |
| CrawlerService.ConvertCodes | backend/internal/application/crawler_service.go:56-71 | the conversion loop with continue builds exactly the specified converted batch |
| CrawlerService.GetMultipleStockData | backend/internal/application/crawler_service.go:55-74 | the result is the manager's batch on the converted codes, plain or real-time |
| HAStock.PairKeys | backend/internal/application/ha_stock_service.go:80 | a per-name key is never the aggregate key, and distinct names have distinct keys |
| HAStock.DottedCodeConverts | backend/internal/application/ha_stock_service.go:235-245 | a dot-free number with market SH, SZ or HK becomes the lower-case market followed by the number |
| HAStock.DottedCodeChanged | backend/internal/application/ha_stock_service.go:216-249 | a code is changed only when it is a dot-free number, a dot and one of SH, SZ, HK |
| HAStock.DottedCodeUnknownMarket | backend/internal/application/ha_stock_service.go:246-247 | any other market leaves the code unchanged |
| HAStock.DotNeverParses | backend/internal/application/ha_stock_service.go:230-232 | a code still holding a dot is rejected by ParseStockCode |
| HAStock.LowerCaseMarketUnconverted | backend/internal/application/ha_stock_service.go:239-247 | a lower-case market such as 601038.sh is not converted, and the later fetch then rejects it |
| HAStock.ConvertStockCode | backend/internal/application/ha_stock_service.go:216-249 | the dot-search loop computes the specified conversion |
| HAStock.JoinLegs | backend/internal/application/ha_stock_service.go:141-171 | the pair succeeds exactly when both legs do, with the pair's name and original codes. Otherwise the error lists each failed leg and only those; the model fixes the A leg first (see Left out) |
| HAStock.PairDataLegs | backend/internal/application/ha_stock_service.go:110-172 | a fetched pair keeps its name and original codes. Its A data is the Sina fetch of the converted A code and its H data the Tencent fetch of the converted H code |
| HAStock.DottedCodeAccepted | backend/internal/application/ha_stock_service.go:112-113 | a converted catalogue code is accepted unchanged by either vendor's conversion |
| HAStock.PairOfDottedCodes | backend/internal/application/ha_stock_service.go:110-172 | for catalogue codes in dotted form, a pair is the join of the two vendor fetches of their prefixed forms |
| HAStock.Fetched | backend/internal/application/ha_stock_service.go:60-67 | the skip-and-continue loop keeps no more results than there are pairs |
| HAStock.FetchedMembers | backend/internal/application/ha_stock_service.go:60-67 | every kept result is the successful fetch of some pair |
| HAStock.FetchedExtremes | backend/internal/application/ha_stock_service.go:292-300 | all pairs succeeding keeps them all; all failing keeps none |
| HAStock.FreshnessRules | backend/internal/application/ha_stock_service.go:184-211 | freshness is a strict age bound on the A leg's update time, or the H leg's when A is missing. Neither leg means never fresh |
| HAStock.FreshnessOrder | backend/internal/application/ha_stock_service.go:184-199 | list freshness depends only on the first entry and is kept under an earlier clock. A single-fresh head makes the list fresh; the empty list is never fresh |
| HAStock.ReadAfterWrite | backend/internal/infrastructure/persistence/redis.go:37-67 | a written value reads back until its lifetime ends and not after. Other keys are unaffected, and a failed write changes nothing |
| HAStock.CacheStore.constructor | backend/internal/infrastructure/persistence/redis.go:37-49 | the store starts empty |
| HAStock.CacheStore.Get | backend/internal/infrastructure/persistence/redis.go:51-67 | a failed read, a missing key and an expired key all read as nothing |
| HAStock.CacheStore.Set | backend/internal/infrastructure/persistence/redis.go:37-49 | writes the key with its expiry unless the write fails, and reports which happened |
| HAStock.CacheStore.SetMany | backend/internal/infrastructure/persistence/redis.go:78-96 | a pipeline writes every item with one expiry, or nothing when it fails; an empty pipeline sends nothing and cannot fail |
| HAStock.CacheStore.Delete | backend/internal/infrastructure/persistence/redis.go:69-76 | removes the key unless the delete fails |
| HAStock.DataMapKeys | backend/internal/application/ha_stock_service.go:259-263 | the batch map has one key per listed name and no other |
| HAStock.DataMapLastWins | backend/internal/application/ha_stock_service.go:259-263 | for repeated names, the last entry is the one kept |
| HAStock.DataMapNoAllKey | backend/internal/application/ha_stock_service.go:259-263 | the batch map never touches the aggregate key |
| HAStock.DataMapEmpty | backend/internal/application/ha_stock_service.go:259-263 | the batch map is empty exactly when the list is |
| HAStock.RefreshedKeys | backend/internal/application/ha_stock_service.go:266-276 | after a refresh, the aggregate key holds the list with the new expiry. The per-name keys are added and every other entry is unchanged |
| HAStock.RefreshedName | backend/internal/application/ha_stock_service.go:307-314 | each listed name's key gets the new expiry, and its value is that entry when the name is not repeated later |
| HAStock.DeletedPairsContents | backend/internal/application/ha_stock_service.go:350-353 | the sweep removes exactly the catalogue keys whose delete succeeds, ignoring failures, and keeps everything else as it was |
| HAStock.CacheHitIgnoresSources | backend/internal/application/ha_stock_service.go:43-49 | a fresh non-empty cached list is returned unchanged, without any repository or fetch result mattering and without writing |
| HAStock.GetAllErrors | backend/internal/application/ha_stock_service.go:38-75 | the listing fails only when there is no usable cached list and the repository fails. When every pair fails, it returns an empty success and writes nothing |
| HAStock.WriteFailuresInvisible | backend/internal/application/ha_stock_service.go:175-181 | cache-write failures never change what the read paths return |
| HAStock.GetAllRoundTrip | backend/internal/application/ha_stock_service.go:69-72 | after a successful write-back, a later call within the lifetime and freshness window serves the same list and writes nothing |
| HAStock.GetByNameCases | backend/internal/application/ha_stock_service.go:78-107 | a fresh cached pair is served without writing. A failed fetch is returned and writes nothing. The store changes only on success, by adding that name's key |
| HAStock.GetByNameStores | backend/internal/application/ha_stock_service.go:91-106 | a missed lookup that fetches its pair returns it. Unless the write fails, it stores the pair under `ha_stock:<name>` with the 2-minute lifetime and keeps every other entry; a failed write leaves the store as it was |
| HAStock.GetByNameRoundTrip | backend/internal/application/ha_stock_service.go:78-107 | after a stored miss, a later lookup within the lifetime and the single-pair freshness window serves the same pair, whatever the repository says, and writes nothing |
| HAStock.ForceRefreshEffect | backend/internal/application/ha_stock_service.go:282-327 | the forced refresh fails with no-data exactly when every pair fails, and then leaves the store alone. It succeeds exactly when some pair is fetched and both writes succeed, leaving every fetched name's key and the aggregate key with a 2-minute lifetime |
| HAStock.RefreshEffect | backend/internal/application/ha_stock_service.go:252-279 | the refresh succeeds exactly when the listing succeeds, the rewrite's aggregate write succeeds and the rewrite's pipeline does not fail on a non-empty list. It then rewrites the keys of the listed data and the aggregate with a 5-minute lifetime; an empty list still rewrites the aggregate |
| HAStock.ClearAllEffect | backend/internal/application/ha_stock_service.go:336-356 | succeeds exactly when the aggregate delete and the catalogue read succeed. It removes the aggregate key and every catalogue key whose delete succeeds, and keeps every other entry |
| HAStock.HAStockService.constructor | backend/internal/application/ha_stock_service.go:28-34 | holds the given crawler manager and cache store; the repository is passed to each operation instead |
| HAStock.HAStockService.GetPairData | backend/internal/application/ha_stock_service.go:110-172 | the two-leg fetch and join compute the specified pair result |
| HAStock.HAStockService.FetchAll | backend/internal/application/ha_stock_service.go:57-67 | the pair loop computes the specified kept results |
| HAStock.HAStockService.BuildDataMap | backend/internal/application/ha_stock_service.go:307-311 | the map-building loop computes the specified batch map |
| HAStock.HAStockService.GetAllHAStockData | backend/internal/application/ha_stock_service.go:38-75 | result and new store are those of the specified cache-aside listing |
| HAStock.HAStockService.GetHAStockDataByName | backend/internal/application/ha_stock_service.go:78-107 | result and new store are those of the specified cache-aside lookup |
| HAStock.RefreshAggregateWriteFails | backend/internal/application/ha_stock_service.go:252-279 | the refresh reports the aggregate-write failure exactly when the listing and the pipeline succeed and the closing aggregate SET fails. The per-name entries are then rewritten, and `ha_stocks:all` keeps what the read-through left, even the list a missed read-through just stored |
| HAStock.HAStockService.StoreAll | backend/internal/application/ha_stock_service.go:258-276 | result and new store are those of the specified rewrite: the pipeline, then the aggregate SET, stopping at the first failure |
| HAStock.HAStockService.RefreshAllHAStockData | backend/internal/application/ha_stock_service.go:252-279 | result and new store are those of the specified refresh, whose read-through and rewrite fail independently |
| HAStock.HAStockService.ForceRefreshAllHAStockData | backend/internal/application/ha_stock_service.go:282-327 | result and new store are those of the specified forced refresh |
| HAStock.HAStockService.ClearCache | backend/internal/application/ha_stock_service.go:330-333 | deletes the name's key, and fails only when that delete fails |
| HAStock.HAStockService.ClearAllCache | backend/internal/application/ha_stock_service.go:336-356 | result and new store are those of the specified sweep |
| HAStock.HAStockService.GetAllHAStockDataRealTime | backend/internal/application/ha_stock_service.go:359-380 | the repository's pairs fetched with the real-time calls, skipping failures, without touching the store |
| HAStock.HAStockService.GetHAStockDataByNameRealTime | backend/internal/application/ha_stock_service.go:383-397 | the named pair fetched with the real-time calls; the repository and fetch errors are propagated |
| PyRuntime.Trunc | stock_data.py:137 | int() of a float truncates toward zero |
| PyRuntime.KeyOfMarkedLine | stock_data.py:128 | the key of a line made of the marker, a code and '=' is exactly the code |
| PyRuntime.QuotedSegment | stock_data.py:260 | the first quoted segment of a line is the text between its first two double quotes |
| PyRuntime.Put | stock_data.py:171 | assigning a key adds it with the value and leaves the other keys alone; a skipped line changes nothing |
| PyRuntime.GatherKeys | stock_data.py:257-281 | a key is in the result dict exactly when some line yields it |
| PyRuntime.GatherLastWins | stock_data.py:257-281 | a line's value is kept when no later line yields the same key |
| PyRuntime.GatherValues | stock_data.py:257-281 | every value in the dict is the one some line yields for its key |
| PyRuntime.Filter | stock_data.py:208-209 | a comprehension's result is never longer than the input |
| PyRuntime.FilterPartition | stock_data.py:208-209 | the two comprehensions split the codes on the 'hk' prefix, with multiplicity |
| PyRuntime.FilterTwice | stock_data.py:231 | filtering already-filtered A-share codes again keeps them all |
| LegacyFetcher.ParseCodeShape | stock_data.py:61-85 | surrounding whitespace is ignored, and a code without a dot gives None. A result starts with sh, sz, bj or hk and holds no dot |
| LegacyFetcher.ParseCodeTrimmed | stock_data.py:63-66 | parsing a code and parsing its stripped form agree |
| LegacyFetcher.ExchangeCodeShape | stock_data.py:72-82 | a recognised suffix gives a code with a two-letter market prefix and no dot |
| LegacyFetcher.ExchangeCodeCases | stock_data.py:72-82 | sh, sz and bj prefix the number; hk and hkg prefix hk and pad to five digits; others give None |
| LegacyFetcher.ParseCodeSplits | stock_data.py:68-70 | only the first dot splits, and the suffix is lower-cased |
| LegacyFetcher.ParseCodeDotted | stock_data.py:68-82 | a dotted code gives the suffix's vendor code: as prefix for sh, sz and bj, hk plus a 5-digit number for hk and hkg, and None otherwise |
| LegacyFetcher.ZFillDigits | stock_data.py:79 | padding a digit string keeps it a non-empty digit string |
| LegacyFetcher.LegacyCodeConverts | stock_data.py:68-79 | a recognised legacy code is accepted unchanged by the Go converter, except bj, which the Go converter rejects |
| LegacyFetcher.LegacyAgainstDotted | stock_data.py:72-79 | for SH and SZ the legacy and Go conversions agree. For HK the legacy one pads to five digits while the Go one does not, so they differ for short numbers |
| LegacyFetcher.RealTimeCodeForm | stock_data.py:94-99 | a real-time code is r_ and the code's hk form; the hk form is idempotent and keeps codes already starting with hk |
| LegacyFetcher.RealTimeCodes | stock_data.py:93-99 | one real-time code per input code |
| LegacyFetcher.BuildRealTimeCodes | stock_data.py:93-99 | the builder loop gives, at each position, r_ and the hk form of that code |
| LegacyFetcher.RealTimeCodesForm | stock_data.py:93-99 | each real-time code is r_ and the hk form of the code at the same position |
| LegacyFetcher.Changes | stock_data.py:184-191 | for a positive previous close, the change plus the previous close is the price, and the percentage times the previous close is 100 times the change; otherwise both are 0 |
| LegacyFetcher.DateTimeOfPair | stock_data.py:143-157 | a "date time" text gives the dashed date, and the time when it has three colon parts, else the current time |
| LegacyFetcher.DashedSlashDate | stock_data.py:147-150 | Y/M/D becomes Y-MM-DD with month and day padded to two |
| LegacyFetcher.DateTimeSlashed | stock_data.py:143-157 | a vendor timestamp Y/M/D hh:mm:ss becomes Y-MM-DD and hh:mm:ss |
| LegacyFetcher.DateTimeFallbacks | stock_data.py:153-169 | a malformed time is replaced by the current time, and a text without a space gives the current date and time |
| LegacyFetcher.GetTencentHkPrice | stock_data.py:87-200 | no codes, or a request that raises, give {}. Otherwise each accepted line sets its key, a later one winning |
| LegacyFetcher.HkLineParts | stock_data.py:124 | splitting a vendor line on '~' gives its fields, with the head glued to the first and the tail to the last |
| LegacyFetcher.HkLineRoundTrip | stock_data.py:121-181 | a real-time vendor line for a code is keyed by that code's hk form and holds its fields' price, or is skipped when a field raises |
| LegacyFetcher.GetSinaStockPrice | stock_data.py:225-298 | Hong Kong codes are dropped before the request. No A-share codes, or a request that raises, give {} |
| LegacyFetcher.CollectSinaLines | stock_data.py:257-293 | the line loop sets each accepted line's key to its price |
| LegacyFetcher.SinaLineKey | stock_data.py:259 | the key of a Sina line is its code |
| LegacyFetcher.SinaLineQuoted | stock_data.py:260 | the quoted data of a Sina line is its fields joined by commas |
| LegacyFetcher.SinaLineParts | stock_data.py:258-263 | a Sina line qualifies, is keyed by its code, and splits back into its fields |
| LegacyFetcher.ALineRoundTrip | stock_data.py:257-293 | a Sina line of at least 32 fields is keyed by its code and holds its fields' price, or is skipped when a field raises |
| LegacyFetcher.AgainstGoSina | stock_data.py:266-290 | on the same fields, the Python and Go Sina parsers agree on name, price and volume. They agree on the change for a positive previous close; otherwise Python reports 0 where Go reports the difference |
| LegacyFetcher.GetMixedStockPrice | stock_data.py:202-223 | the A-share dict updated with the HK dict, each side fetched only when non-empty |
| LegacyFetcher.MixedMerge | stock_data.py:207-221 | the merged keys are both sides' keys, HK values win on a shared key, and the A side's re-filter keeps all its codes |
| SinaApiProbe.ChangesFor | test_sina_api.py:79-83 | the change keys are present exactly for a positive previous close, and then the change plus the previous close is the price with its percentage |
| SinaApiProbe.NoneRaisedAll | test_sina_api.py:49-109 | the loop's no-exception condition holds exactly when no line raises |
| SinaApiProbe.TestSinaStockApi | test_sina_api.py:18-115 | the probe prints the specified dict, or the failure message when the request or a line raises |
| SinaApiProbe.ReadLines | test_sina_api.py:49-109 | the line loop aborts on the first line that raises, and otherwise builds the specified dict |
| SinaApiProbe.ReadLine | test_sina_api.py:50-109 | one line either raises or assigns its entry, with the change keys added for a positive previous close |
| SinaApiProbe.ProbeLineShape | test_sina_api.py:58-109 | a parsed record's stock type follows its code's branch, and its raw length is its field count, at least 7 or 32 |
| SinaApiProbe.RunShape | test_sina_api.py:40-115 | the dict is printed exactly when no line raises, and every entry is well formed |
| SinaApiProbe.OneBadLineAborts | test_sina_api.py:114-115 | one raising line makes the whole run print the failure message |
| SinaApiProbe.HkLineRoundTrip | test_sina_api.py:58-83 | an hk line of at least 7 fields is read with the Hong Kong layout |
| SinaApiProbe.ALineRoundTrip | test_sina_api.py:84-109 | another line of at least 32 fields is read with the A-share layout |
| SinaApiProbe.AgreesWithLegacy | test_sina_api.py:84-109 | on A-share lines the probe and stock_data.py accept the same lines with the same fields, the probe's missing change keys being stock_data.py's zeros |

## Left out

- HTTP requests: headers, timeouts and request building. The Tencent real-time URL's `&_t=` nanosecond timestamp is not modelled; a real-time request is marked by a flag instead.
- GB18030/gbk decoding of the Sina and Python answers. It is a foreign library; bodies are decoded text.
- `GetSourceName` and `CrawlerService.IsValidStockCode` are constant strings and a delegation, and are not modelled separately.
- The concurrent join in `getHAStockDataByPair` is not modelled: goroutines, channels, `select` and cancellation through `ctx.Done()`. The two legs are fetched one after the other.
- HAStock.JoinLegs: when both legs fail, the model lists the A leg's error first. The source appends the errors in the order the goroutines deliver them, so that order is not fixed.
- Redis and JSON: a stored value is a typed cache value. A value of the wrong shape under a key reads as a miss, as an unmarshal error does.
- HAStock.Faults: a key's read, write or delete failure is fixed for the whole of one call, except that a refresh's read-through and its rewrite each have their own. So `ClearAllCache` deletes a name listed twice in the catalogue with the same outcome both times, while in the source the second delete may fare differently.
- HAStock: one `env.now` serves a whole Go call. The source reads the clock at each use: each freshness check (ha_stock_service.go:192-207) and each parsed quote's default update time (sina_crawler.go:121, tencent_crawler.go:223 and 242). So instants that differ slightly in the source are equal in the model.
- Redis pipelines that fail part-way are modelled as writing nothing. An empty pipeline is modelled as sending nothing, so it never fails.
- MySQL/gorm: the repository is a value giving the catalogue and a lookup by name.
- Floating-point rounding, `strconv.ParseFloat`/`ParseInt` syntax and Python's `float()`/`int()` are oracles. Non-finite floats are not modelled, and neither is int64 overflow of the truncated volume.
- `time.Parse`, `time.Now`, time zones and `datetime.now()` are oracles or parameters. The model reads one clock value per run of each Python script. `stock_data.py` reads the clock again in each fallback branch, line by line, so lines handled at different instants may get different times in the source.
- Text is modelled as sequences of characters. Lengths are counted in characters, not bytes.
- Upper- and lower-case mapping covers ASCII, plus the two non-ASCII characters that Go maps to ASCII.
- Whitespace stripping, for Go's `TrimSpace` and Python's `strip()` alike, removes exactly space, tab, line feed, carriage return, vertical tab and form feed. It misses U+0085, U+00A0, U+1680, U+2000 to U+200A, U+2028, U+2029, U+202F, U+205F and U+3000, which both languages strip. It also misses U+001C to U+001F, which only Python strips. For example, `parse_stock_code("600036.SH\u3000")` gives `sh600036` in Python but None in the model.
- All debug printing, and the JSON output format of the probe. The probe's printed dict is the modelled result.
- Python dict insertion order is not modelled. Neither is the difference between the integer 0 and the float 0.0 in a printed dict.
- CrawlerManager.Manager.Contribute: a call is issued only for a non-empty group, but the model states only what an empty group contributes (nothing), not that no call is made.
- `query_stock_pairs`, `get_all_stock_data`, `save_data_to_file`, `get_random_user_agent`, the database pool and `time.sleep` in stock_data.py are database, file and timing code.
- The HTTP handlers, services, gRPC server, configuration, scheduler and user interfaces around the core.
