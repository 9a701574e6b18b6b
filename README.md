# Arbitrage scan pipeline — a Dafny model

This project models the product-scanning core of an Amazon arbitrage tool, which compares
Keepa catalog data across marketplaces. The pipeline has these parts:

- **HTTP handlers.** `scanCategory`, `getCategoryProducts` and `startCategoryScan` pull a
  category's products from Keepa. They filter them by sales rank, hazmat flag, brand lists,
  weight, size and buy-box ownership, then upsert the survivors into the `products`
  collection. `startCategoryScan` also marks each survivor in the cache and hands it to the queue of
  `lib/keepaQueue.js` as a job `{ upc, mode }`, with the category in `mode`.
- **Three queue workers.**
  - The ASIN batch worker (`lib/worker.js`) fetches products 100 ASINs at a time. It retries
    each batch up to three times with a linear back-off and upserts what comes back. An
    upsert that throws fails the attempt like a failed request, and the upserts before it stay.
  - The per-ASIN worker (`lib/worker/keepaWorker.js`) applies the hard filters, the brand
    check and the Amazon buy-box check. It then predicts a price crash, computes a rank
    score and alerts, and stores the product.
  - The UPC scan worker (`pages/api/lib/keepaQueue.js`) looks up the US and target-market
    records. It filters both, computes fees, shipping and a risk multiplier, and writes the
    opportunity score, the price-crash analysis and alerts. Its producer enqueues a UPC only
    when the UPC is not already marked as scanned.
- **The analytics library** (`lib/keepaUtils.js`, `lib/calcInternationalProfit.js`,
  `lib/brandCheck.js`, `lib/buyBoxCheck.js`). It holds the record normaliser, the filters,
  fee and shipping estimates, the risk multiplier, competition moats, the buy-box share,
  price-crash prediction, sales velocity, FBA seller trends, restock risk and international
  profit.

## How the model is built

Pure code becomes datatypes, functions and lemmas:

- Money and percentages are exact `real`s.
- JavaScript's `Math.round` and `toFixed(2)` are written out as `Rounding.JsRound` and
  `Rounding.ToFixed2`.
- An absent string field is `""`. An absent number is `None`. JavaScript's `x || d` on
  numbers treats an absent value and `0` alike.
  Where the source tells a missing field from an explicit `null` (the `!== undefined` guard
  of the restock risk), the model keeps the two apart.
- Every early-return filter yields a `FilterChain.Decision`: `Accept`, or `Reject` with the
  reason of the first check that fails. Each filter is proved equal both to that first-failure
  chain, in the source's order, and to the plain conjunction of its checks.

Code that changes stored state becomes a `class`:

- Collections and the cache are `map` fields keyed by the handler's upsert filter.
- Queued jobs, alert inserts and throttle waits are `seq` fields.
- Each method is proved against a specification function of the old state and its inputs.
- The properties the source relies on are proved as lemmas about those functions.

Inputs the code gets from outside are parameters:

- A network fetch is an oracle.
  - The batch worker's fetch takes the batch and the attempt number. It answers either no
    usable response, or the returned products with the index of the upsert that throws, if any.
  - The per-ASIN worker's fetch is an `Option` of the fetched record.
  - The UPC worker's catalog is a map from (UPC, marketplace) to the normalised record.
- The clock (`now`, `month`) and the configuration files (brand lists, Amazon seller ids)
  are parameters too.

## Model

| member | source | states |
|---|---|---|
| Rounding.JsRound | lib/keepaUtils.js:418 | `Math.round` gives the integer within half of x, with halves going up |
| Rounding.ToFixed2 | lib/calcInternationalProfit.js:62-63 | `toFixed(2)` gives a value with two decimals within half a cent of x, with halves rounded away from zero |
| Rounding.ToFixed2OfTwoDecimals | lib/calcInternationalProfit.js:62-63 | an amount that already has two decimals is returned unchanged |
| Rounding.ToFixed2Idempotent | lib/calcInternationalProfit.js:62-63 | rounding to cents twice is the same as rounding once |
| Rounding.ToFixed2Odd | lib/calcInternationalProfit.js:62-63 | rounding is symmetric about zero |
| Rounding.JsRoundOfInteger | lib/keepaUtils.js:418 | an integer-valued amount is left as is |
| Text.LowerChar | lib/brandCheck.js:6 | an upper-case ASCII letter maps to its lower-case letter; other characters are unchanged |
| Text.ToLower | lib/brandCheck.js:6 | lower-casing keeps the length, maps each character, and leaves no capital letter |
| Text.ToLowerIdempotent | lib/brandCheck.js:6 | lower-casing twice is lower-casing once |
| Text.NotALowerCaseImage | lib/brandCheck.js:6-10 | a string that contains a capital letter is never the lower-cased form of anything |
| FilterChain.FirstFailureMeaning | lib/keepaUtils.js:875-883 | an early-return chain accepts iff no check fails; a rejection names a failing check, and every check before it passes |
| BrandCheck.IsBrandAllowed | lib/brandCheck.js:3-15 | a brand is allowed exactly when it is non-empty, its lower-cased form is off the blacklist, and it is on the whitelist when the whitelist is non-empty |
| BrandCheck.EmptyBrandRejected | lib/brandCheck.js:4 | a missing brand is never allowed |
| BrandCheck.CaseInsensitive | lib/brandCheck.js:6-14 | brands that differ only in letter case get the same answer |
| BrandCheck.BlacklistWins | lib/brandCheck.js:8 | a brand on both lists is refused |
| BrandCheck.WhitelistRequired | lib/brandCheck.js:10-12 | with a non-empty whitelist, a brand off it is refused |
| BrandCheck.EmptyWhitelistAllowsRest | lib/brandCheck.js:10-14 | with an empty whitelist, exactly the non-empty brands off the blacklist are allowed |
| BrandCheck.UpperCaseEntryNeverMatches | lib/brandCheck.js:6-10 | a list entry that contains a capital letter can never match |
| BuyBox.AmazonBuyBoxShare | lib/keepaUtils.js:67-75 | 0 without buy-box stats; otherwise the Amazon seller ids' percentages summed in order, with absent entries counting 0 |
| BuyBox.AmazonBuyBoxPercentage | lib/keepaUtils.js:557-571 | the loop over seller ids returns the summed share rounded to two decimals |
| BuyBox.AmazonShareBounds | lib/keepaUtils.js:67-75 | with percentages in [0,100], the share lies in [0,200]; nothing caps it at 100 |
| Competition.IntOr | lib/keepaUtils.js:464 | `x \|\| d` on a count: the count when present and non-zero, else the default |
| Competition.Clamp100 | lib/keepaUtils.js:470 | the value is clamped into [0,100] and left unchanged inside it |
| Competition.CompetitionMoat | lib/keepaUtils.js:88-97 | the moat lies in [0,80]; it is 80 exactly when all four bonuses apply and 0 exactly when none does |
| Competition.CalculateCompetitionMoat | lib/keepaUtils.js:463-471 | the moat lies in [0,100]; it is 0 from ten sellers up, or from eight with Amazon on the buy box; one seller without Amazon gives 90 |
| Competition.CalculateMoatMonotone | lib/keepaUtils.js:463-471 | more sellers, or Amazon taking the buy box, never raise the moat |
| Competition.LevelOf | lib/keepaUtils.js:508 | strong from 70, medium from 50 to 69 |
| Competition.GetCompetitionMoatScore | lib/keepaUtils.js:479-510 | the accumulated score is the clamped sum of the five independent contributions; the level is taken from the unclamped sum |
| Competition.RawMoatScoreRange | lib/keepaUtils.js:480-505 | the unclamped score lies in [-20,100], so only the lower clamp can bite |
| Competition.MoatLevelMatchesClampedScore | lib/keepaUtils.js:506-509 | the level computed before clamping agrees with the level of the clamped score |
| Competition.BrandGateOrder | lib/keepaUtils.js:493-495 | the whitelist wins over the blacklist; a blacklisted brand off the whitelist costs 35 points against a whitelisted one |
| Competition.ComputeCompetitionMoat | lib/keepaUtils.js:517-522 | the moat is 30, 40 or 50; 50 iff neither penalty applies, 30 iff both do |
| Competition.GetCompetitionMultiplier | lib/keepaUtils.js:529-537 | the multiplier is at least 0.5 and is 1 without Amazon among the buy-box owners; with Amazon it is one minus its equal share |
| KeepaProduct.FirstRank | lib/keepaUtils.js:175 | the first rank of the first category series, or 999999 without sales ranks |
| KeepaProduct.Normalize | lib/keepaUtils.js:165-200 | identity fields are copied; hazmat only for `=== true`; prices are divided by 100 and weights by 1000 when present and non-zero; the category and seller count always have a value |
| KeepaProduct.NormalizeCategoryFallback | lib/keepaUtils.js:199 | the category is the root category, then the first tree node, then "uncategorized" |
| KeepaProduct.NormalizeBuyBoxFallback | lib/keepaUtils.js:171 | the buy-box price falls back to the current price only when it is absent or zero |
| KeepaProduct.ExtractKeepaPricing | lib/keepaUtils.js:922-932 | cents become dollars and grams become kilograms; hazmat only for `=== true`; the other fields are copied |
| KeepaFilters.PassInitialFilter | lib/keepaUtils.js:49-62 | accepts iff the product has a UPC, is not hazmat, has a brand off the blacklist, has a brand on the non-empty whitelist, and its first rank is at most the limit; the reason is the first failing check |
| KeepaFilters.PassInitialFilterMissingRank | lib/keepaUtils.js:58-61 | a product without sales ranks is always refused |
| KeepaFilters.PassInitialFilterEmptyBrand | lib/keepaUtils.js:52-56 | an otherwise good product without a brand fails the whitelist, not the blacklist |
| KeepaFilters.FilterProduct | lib/keepaUtils.js:875-883 | accepts iff every check passes: UPC, rank, hazmat, whitelist, blacklist, positive buy-box price; the reason is the first failing check |
| KeepaFilters.FilterProductRankBoundary | lib/keepaUtils.js:877 | the rank ceiling is inclusive: 20000 passes and 20001 is refused for its rank |
| KeepaFilters.FilterProductBlacklistUnreachable | lib/keepaUtils.js:879-880 | the blacklist check can never be the reason for a rejection |
| KeepaFilters.NormalizedWithoutRankRejected | lib/keepaUtils.js:875-877 | a normalised record whose raw data had no sales ranks never passes `filterProduct` |
| KeepaFilters.Priority | lib/keepaUtils.js:886-892 | the priority is at most 15 minus rank/100000 |
| KeepaFilters.PriorityScore | lib/keepaUtils.js:886-892 | the accumulating loop body returns the priority |
| KeepaFilters.PriorityRankMonotone | lib/keepaUtils.js:890 | a better (lower) rank never lowers the priority |
| KeepaFilters.CategoryApiFilter | lib/keepaUtils.js:289-295 | the category response filter is its first-failure chain over hazmat match, rank, weight and size, and accepts exactly when the hazmat flag matches (or none is asked for), the rank is not above a nonzero ceiling and neither a truthy weight nor a truthy size exceeds its truthy limit |
| KeepaFilters.CategoryApiDefaultRejectsUnflagged | lib/keepaUtils.js:274-290 | with the defaults, a product with no hazmat flag is dropped |
| KeepaFilters.CategoryApiDefaultRankBoundary | lib/keepaUtils.js:273-291 | with the defaults, rank 20000 and a missing rank pass, and 20001 is dropped |
| KeepaFilters.MappedRank | lib/keepaUtils.js:303 | the mapped rank is the first entry's non-zero rank, or 999999 |
| KeepaFilters.ToCategoryProduct | lib/keepaUtils.js:297-309 | identity fields and the category are copied; a missing buy-box price becomes 0; hazmat is true only when set; there is no buy-box seller |
| KeepaFilters.CategoryApiResult | lib/keepaUtils.js:286-309 | no products gives []; otherwise every product the filter accepts appears mapped with the requested category, and nothing else appears |
| KeepaFilters.CategoryApiResultAppend | lib/keepaUtils.js:289-309 | the result for two runs of products is the result for the first followed by the result for the second, so the response order is kept |
| KeepaFilters.CategoryApiResultSingle | lib/keepaUtils.js:289-309 | a single product is mapped when the filter accepts it and dropped otherwise |
| Scoring.CalculateFees | lib/keepaUtils.js:327-331 | the fees are the 3.5 FBA fee plus 15% of the price |
| Scoring.FirstTruthy | lib/keepaUtils.js:341 | `x \|\| y \|\| 0`: the first present non-zero weight |
| Scoring.EstimateShipping | lib/keepaUtils.js:339-344 | shipping is 5 plus 6.5 per kilogram of the first truthy weight |
| Scoring.ShippingExamples | lib/keepaUtils.js:339-344 | 1200 g ships for 12.8; no weight at all ships for the base cost |
| Scoring.ShippingMonotone | lib/keepaUtils.js:339-344 | heavier parcels never ship for less |
| Scoring.Penalties | lib/keepaUtils.js:366-374 | the applicable penalty factors are in (0,1); there are none exactly when no flag is raised |
| Scoring.CalculateRiskMultiplier | lib/keepaUtils.js:359-375 | `risk *=` step by step yields the product of the applicable penalties |
| Scoring.RiskMultiplierRange | lib/keepaUtils.js:359-375 | the multiplier lies in (0,1] and is 1 exactly when no penalty applies |
| Scoring.RiskMultiplierOrderIndependent | lib/keepaUtils.js:368-372 | applying the penalties in any order gives the same multiplier |
| Scoring.RiskMultiplierClosedForm | lib/keepaUtils.js:366-374 | the multiplier is the product of one factor per flag |
| Scoring.RiskMultiplierMonotone | lib/keepaUtils.js:359-375 | raising more flags never raises the multiplier |
| Scoring.OpportunityScore | pages/api/lib/keepaQueue.js:64 | with no penalty the score is the margin; with a positive multiplier it is positive iff the target buy box exceeds price plus fees plus shipping |
| Scoring.OpportunityMonotone | pages/api/lib/keepaQueue.js:64 | a higher target buy-box price never lowers the score |
| Scoring.OpportunityScenarios | pages/api/lib/keepaQueue.js:53-64 | worked examples: a matching pair scores 17.70; a hazmat flag brings it to 12.39 |
| Scoring.CalculateProfitScore | lib/keepaUtils.js:413-419 | the rounded value of 85% of the buy box, less the first truthy US price and 5 |
| Scoring.CalculateInternationalProfit | lib/keepaUtils.js:895-921 | the cost, profit and ROI are rounded to cents; the ROI is measured against the total cost and is 0 when that cost is not positive |
| Scoring.InternationalProfitAddsUp | lib/keepaUtils.js:903-919 | the rounded profit and rounded cost add back to the buy box within one cent |
| Scoring.InternationalRoiSign | lib/keepaUtils.js:910-914 | with a positive cost, a negative ROI means the buy box is below the cost |
| Signals.RankVariance | lib/keepaUtils.js:613-615 | the population variance of the ranks is never negative; an empty list gives 0 |
| Signals.DropScore | lib/keepaUtils.js:609-610 | the drop score lies in [0,100]; it is 0 for a rise and the relative fall in percent for a fall |
| Signals.SteadyRankHasNoVariance | lib/keepaUtils.js:614-616 | at most one rank entry has no variance |
| Signals.VolatilityScore | lib/keepaUtils.js:616 | the volatility lies in [0,100] and is 0 for at most one entry |
| Signals.AmazonImpact | lib/keepaUtils.js:619-620 | 30 exactly when Amazon US holds the buy box, else 0 |
| Signals.SeasonalFactor | lib/keepaUtils.js:623-624 | 10 exactly for toys in November or December, else 0 |
| Signals.CrashTotal | lib/keepaUtils.js:626-630 | the weighted total lies in [0,77] |
| Signals.CrashLevelOf | lib/keepaUtils.js:632-634 | high above 70, medium above 40, otherwise low |
| Signals.PredictPriceCrash | lib/keepaUtils.js:604-640 | fewer than two prices give (0, unknown); otherwise the rounded total, in [0,77], with its level |
| Signals.NoDropMeansLowCrashLevel | lib/keepaUtils.js:604-640 | without a price drop the score is at most 37 and the level is low |
| Signals.HalvedPriceScenario | lib/keepaUtils.js:604-640 | a fall to half price, with nothing else, scores exactly 20, low |
| Signals.CalculateSalesVelocity | lib/keepaUtils.js:680-686 | the ranks are `salesRanks`, else `history.salesRank`, else none; 1 exactly when that list has at least two ranks and the last is below the first, else 0.5; Keepa's category-keyed object always gives 0.5 |
| Signals.NormalizedVelocity | lib/keepaUtils.js:680-686 | a normalised record with a `salesRanks` object always gets 0.5; one without it is judged on its csv rank series |
| Signals.GetFBASellerTrend | lib/keepaUtils.js:77-86 | the delta is now minus the 30-day average; risk is high from 3 and medium from 1; without stats the trend is (0, low) |
| Signals.StatusOf | lib/keepaUtils.js:770 | high risk from 40, medium from 20 |
| Signals.GetFBASellerTrendScore | lib/keepaUtils.js:743-772 | the deltas against the 30- and 90-day averages, the score as the sum of their points, and the status of that score |
| Signals.TrendScoreBoundsAndMonotone | lib/keepaUtils.js:753-764 | the score lies in [-30,60] and rises with each delta |
| Signals.TrendHighRiskExactly | lib/keepaUtils.js:753-770 | high risk exactly for a 30-day jump of at least 3 with a 90-day delta above -2, or a jump of 2 with a 90-day delta of at least 3 |
| Signals.GetAmazonRestockRisk | lib/keepaUtils.js:706-736 | the accumulated risk is the sum of the four contributions, capped at 100; an explicit `null` last-seen passes the `!== undefined` guard and compares as 0 |
| Signals.RestockRiskSaturates | lib/keepaUtils.js:706-736 | the raw risk lies in [0,115]; it reaches the cap of 100 exactly when Amazon held the buy box within 30 days (or the field is `null`), still lists a positive price and has a seller count |
| Signals.HistoryRiskByLastSeen | lib/keepaUtils.js:711-714 | a missing last-seen adds nothing; an explicit `null` adds 50 like a sighting today; 50 is added exactly for `null` or at most 30 days |
| Alerts.AlertList | pages/api/lib/keepaQueue.js:110-113 | each alert is present iff its condition holds; there are no duplicates; the profit alert comes first |
| Alerts.BuildAlerts | pages/api/lib/keepaQueue.js:110-113 | the `push` sequence builds that list |
| Alerts.CrashAlertThreshold | pages/api/lib/keepaQueue.js:112 | for integer crash scores, "above 0.7" means "at least 1" |
| IntlProfit.CostBreakdown | lib/calcInternationalProfit.js:24-45 | each cost line is the stated combination of listing and logistics fields; the closing fee defaults to 0 |
| IntlProfit.CalcInternationalProfit | lib/calcInternationalProfit.js:6-74 | the net profit is the price less all costs, rounded within half a cent; the ROI is absent exactly for a zero buy price |
| IntlProfit.BuyBoxPriceShift | lib/calcInternationalProfit.js:47-55 | raising the sale price by d raises the unrounded profit by d and leaves every cost as is |
| IntlProfit.BuyPriceMarginalCost | lib/calcInternationalProfit.js:34-55 | each unit of buy price costs 1 + customs rate + FX loss rate |
| IntlProfit.ClosingFeeDefaultsToZero | lib/calcInternationalProfit.js:11 | an absent closing fee behaves as 0 |
| IntlProfit.RoiSignFollowsProfit | lib/calcInternationalProfit.js:58-59 | for a positive buy price, the unrounded ROI has the sign of the profit |
| ScanQueue.CachedAsProduct | pages/api/lib/keepaQueue.js:40 | the cached `true` marker reads as a record with no UPC |
| ScanQueue.KeepaQueue.ProcessJob | pages/api/lib/keepaQueue.js:30-138 | the result is the evaluated outcome; an unscored job writes nothing; a scored one caches and upserts under its keys, logs alerts and waits 1200 ms |
| ScanQueue.KeepaQueue.Record | pages/api/lib/keepaQueue.js:85-135 | each write lands under its upsert filter; an alert document is inserted only for a non-empty list; one throttle wait |
| ScanQueue.KeepaQueue.AddToQueue | pages/api/lib/keepaQueue.js:143-166 | enqueues iff the scanned key is absent; then it adds the "scan" job with id `keepa:upc:mode` and marks the key; otherwise nothing changes |
| ScanQueue.ScoreOpportunity | pages/api/lib/keepaQueue.js:53-64 | the fee, shipping and risk steps give the opportunity score |
| ScanQueue.EvaluateScores | pages/api/lib/keepaQueue.js:39-137 | a pair that passes every check is scored with its data and analysis |
| ScanQueue.ScoredExactlyWhenBothPass | pages/api/lib/keepaQueue.js:35-50 | a job is scored iff it is not cached and both records exist and pass `filterProduct`; the later hazmat and rank checks never fire |
| ScanQueue.ScoreOfAcceptedPair | pages/api/lib/keepaQueue.js:52-64 | a scored pair has no hazmat factor and a multiplier in (0,1]; its score is positive iff the target buy box exceeds US price plus fees plus shipping |
| ScanQueue.AlertsOfScoredJob | pages/api/lib/keepaQueue.js:109-115 | a scored job's alerts follow its scores; the Amazon alert never fires on normalised records |
| ScanQueue.MarkedUpcIsDropped | pages/api/lib/keepaQueue.js:40-42 | a UPC marked `true` by the intake is dropped unless its result is cached |
| ScanQueue.RerunAnswersFromCache | pages/api/lib/keepaQueue.js:35-37 | rerunning a scored job answers from the cache |
| KeepaWorker.IsAmazonOnBuyBox | lib/buyBoxCheck.js:3-5 | true iff the marketplace has an Amazon seller id and it is the buy-box seller |
| KeepaWorker.HardFilters | lib/worker/keepaWorker.js:20-28 | accepts iff the product is not hazmat, has a buy-box price, has a rank of at most 150000 or none, has an allowed brand and is not on Amazon's buy box; the reason is the first failing check |
| KeepaWorker.Worker.HandleJob | lib/worker/keepaWorker.js:7-93 | a stored, missing or filtered product writes nothing; otherwise the document is upserted under (asin, marketplace), alerts are logged when present, and the rank score is returned |
| KeepaWorker.Worker.Record | lib/worker/keepaWorker.js:74-90 | one upsert, plus an alert entry only for a non-empty list |
| KeepaWorker.ScoreProduct | lib/worker/keepaWorker.js:30-72 | the scoring steps build the product document |
| KeepaWorker.SalesRankBoundary | lib/worker/keepaWorker.js:22 | rank 150000 and a missing rank pass; 150001 is refused for its rank |
| KeepaWorker.CrashScaleFlipsRankScore | lib/worker/keepaWorker.js:39-43 | with positive factors, the rank score is positive only for a zero crash score and negative from 2 |
| KeepaWorker.FetchedRecordScoresZero | lib/worker/keepaWorker.js:35-48 | a fetched record, which lacks profit and the other fields, scores 0 and can only raise the crash alert |
| KeepaWorker.StoredJobWritesNothing | lib/worker/keepaWorker.js:11-13 | an (asin, marketplace) already stored ends the job |
| BatchWorker.Slice | lib/worker.js:41 | each batch is the next 1 to 100 ASINs |
| BatchWorker.BatchesPartition | lib/worker.js:40-41 | the batches are non-empty, hold at most 100 each, and concatenate back to the ASIN list |
| BatchWorker.Written | lib/worker.js:53-55 | an attempt writes all returned products when no upsert throws, nothing without a response, and otherwise exactly the products before the throwing upsert |
| BatchWorker.UpsertAllKeys | lib/worker.js:53-55 | the upserts add exactly the returned ASINs and leave other products untouched |
| BatchWorker.UpsertAllAppend | lib/worker.js:53-55 | upserting one list after another is upserting their concatenation, so writes of successive attempts add up |
| BatchWorker.Backoff | lib/worker.js:61-63 | the k-th failure waits 1200·k ms |
| BatchWorker.RetryRequests | lib/worker.js:43-65 | a batch is requested one to three times, each time in full |
| BatchWorker.RetryAllFailKeepsPartialWrites | lib/worker.js:43-65 | when all three attempts fail, by request or by a throwing upsert, the batch is dropped with the upserts the attempts made kept in order, after the linear back-off waits, with three requests of the batch |
| BatchWorker.RetryAllFail | lib/worker.js:43-65 | three failed requests (no response) leave the store unchanged after the linear back-off waits |
| BatchWorker.RetrySucceedsAfterFailures | lib/worker.js:43-65 | the first attempt whose upserts all succeed ends the retries: its products are written after the partial writes of the failed attempts, the failures wait 1200·k ms and the success 1200 ms, and the batch was requested once per attempt |
| BatchWorker.RetrySucceedsAt | lib/worker.js:44-63 | when the failures before the first success got no response, the store ends as upserting that success's products, after the same waits |
| BatchWorker.RequestsPerJob | lib/worker.js:40-65 | a job makes at most three requests per batch |
| BatchWorker.Worker.Process | lib/worker.js:36-69 | the job's store is the upsert of every batch's writes in order, and its waits and requests are those of the batches one after the other |
| BatchWorker.Worker.ProcessBatch | lib/worker.js:42-66 | the retry loop for one batch writes, waits and requests exactly what the retry specification says, including the upserts kept from attempts that failed in an upsert |
| BatchWorker.Worker.Attempt | lib/worker.js:45-58 | one attempt requests the batch once and upserts what `Written` says; it reports success exactly when a response came and no upsert threw |
| BatchWorker.Worker.UpsertProducts | lib/worker.js:53-55 | the returned products are upserted in order up to the one that throws, and the result says whether none threw |
| CategorySweep.RankCeiling | pages/api/scanCategory.js:36 | the category's configured rank, or the fallback when it is absent or zero |
| CategorySweep.Sweep | pages/api/scanCategory.js:35-45 | keeps iff the rank, hazmat, blacklist, whitelist, weight, size and buy-box checks all pass; the reason is the first failing check |
| CategorySweep.SweepRankBoundary | pages/api/scanCategory.js:36-37 | the ceiling is inclusive and a missing rank passes |
| CategorySweep.SweepCeilings | pages/api/scanCategory.js:6-11 | toys 5000 here and 60000 in `getCategoryProducts`; unlisted categories fall back to 100000 |
| CategorySweep.KeptBrands | pages/api/scanCategory.js:39-40 | only Samsung, Sony or LEGO survive, and the blacklist never matters |
| CategorySweep.SweepIsCaseSensitive | pages/api/scanCategory.js:39-42 | brand and size matching are case-sensitive, and the two handlers' size labels differ in case |
| CategorySweep.ShadowedBlacklistKeepsSony | pages/api/getCategoryProducts.js:48-56 | the inner blacklist shadows the outer one, so Sony is kept |
| CategorySweep.SweepWeightOnlyWhenTruthy | pages/api/scanCategory.js:41 | a zero or missing weight skips the weight check; a non-zero weight over the limit drops the product |
| ScanCategory.KeptItems | pages/api/scanCategory.js:35-45 | exactly the fetched products the sweep keeps |
| ScanCategory.Writes | pages/api/scanCategory.js:30-57 | writes happen only for a category with a successful response holding products; then exactly the kept products are written, every one of them, in response order |
| ScanCategory.Respond | pages/api/scanCategory.js:19-66 | 400 iff the category is missing, 500 iff the fetch failed, saved iff the list is non-empty, with the count of kept products |
| ScanCategory.UpsertedContents | pages/api/scanCategory.js:50-57 | the keys are the old keys plus the kept ASINs; others are untouched; the last write for an ASIN wins |
| ScanCategory.RescanIsIdempotent | pages/api/scanCategory.js:50-57 | rescanning the same response at the same time changes nothing |
| ScanCategory.CategoryStore.Handle | pages/api/scanCategory.js:19-66 | the response is the specified one and the store is the folded upsert of the writes, each write replacing the record (see Left out) |
| CategoryProducts.OpOf | pages/api/getCategoryProducts.js:65-81 | the upsert filter is the UPC, with the product's fields, the category and the time |
| CategoryProducts.KeptItems | pages/api/getCategoryProducts.js:51-61 | exactly the fetched products the sweep keeps |
| CategoryProducts.Handle | pages/api/getCategoryProducts.js:28-92 | 405, 400 and 404 exactly in their cases, with no writes; otherwise the i-th operation is the upsert of the i-th kept product, `queuedProducts` is the number of kept products and `totalProducts` the number received |
| CategoryProducts.KeptProductsAreWritten | pages/api/getCategoryProducts.js:50-81 | every product that passes the filter of an answered request has its upsert among the operations |
| CategoryProducts.UsPriceIsBuyBoxPrice | pages/api/getCategoryProducts.js:75 | every written US price is the product's non-zero buy-box price |
| CategoryProducts.BulkWriteContents | pages/api/getCategoryProducts.js:83-85 | the keys are the old keys plus the written UPCs; others are untouched; every new key holds a written document |
| CategoryProducts.RefusedRequestWritesNothing | pages/api/getCategoryProducts.js:29-46 | a non-200 response leaves the store unchanged |
| CategoryIntake.OptionsOf | pages/api/startCategoryScan.js:18-25 | each request field replaces its default only when given |
| CategoryIntake.RankLimit | pages/api/startCategoryScan.js:67 | the category's limit, or 20000 |
| CategoryIntake.Check | pages/api/startCategoryScan.js:46-72 | admits iff the product is unseen, not blacklisted, whitelisted, within weight and size, not hazmat, within rank and not Amazon-owned |
| CategoryIntake.CheckFollowsIntakeOrder | pages/api/startCategoryScan.js:49-72 | the reason is the first failing check, in the source's order |
| CategoryIntake.Respond | pages/api/startCategoryScan.js:15-111 | 405 iff not POST, 400 iff no category, the no-products answer iff the category API returns nothing; a started scan names its category and its `queuedProducts` is the number of jobs the walk added |
| CategoryIntake.Throttles | pages/api/startCategoryScan.js:99-100 | one 1200 ms wait per batch |
| CategoryIntake.RunGrows | pages/api/startCategoryScan.js:45-97 | the walk only adds cache keys, records and jobs, and the count grows with the jobs |
| CategoryIntake.RunAppend | pages/api/startCategoryScan.js:42-101 | walking batch by batch equals walking the whole list |
| CategoryIntake.QueuedProductsAreRecorded | pages/api/startCategoryScan.js:74-96 | each new job is `{ upc, mode: category }` with no `category` field, as `addToQueue(upc, mode, category)` of lib/keepaQueue.js:24-30 builds it from two arguments; each queued UPC was new, is queued once, and is stored with the category and cached for 24 h; the count equals the new jobs |
| CategoryIntake.DefaultWhitelistIsCapitalised | pages/api/startCategoryScan.js:10 | every default whitelist entry contains a capital letter |
| CategoryIntake.DefaultWhitelistQueuesNothing | pages/api/startCategoryScan.js:46-56 | with the default whitelist, the lower-cased brand never matches, so nothing is stored or queued |
| CategoryIntake.CategoryApiOutputPassesHazmatAndAmazon | pages/api/startCategoryScan.js:63-72 | on the category API's output, the hazmat and Amazon checks never fire |
| CategoryIntake.IntakeRankBoundary | pages/api/startCategoryScan.js:67 | the rank limit is inclusive |
| CategoryIntake.CategoryScan.Handle | pages/api/startCategoryScan.js:15-111 | the response, the new stores and the `{ upc, mode: category }` jobs are the specified outcome, with one throttle wait per batch |
| CategoryIntake.CategoryScan.Walk | pages/api/startCategoryScan.js:39-101 | the batch loop equals the specification's walk, including its `{ upc, mode: category }` jobs, and waits once per batch |
| CategoryIntake.CategoryScan.ProcessBatch | pages/api/startCategoryScan.js:45-97 | one batch equals the walk over its products, jobs included |
| CategoryIntake.CategoryScan.Admit | pages/api/startCategoryScan.js:45-97 | one product equals one step of the walk: an admitted product is upserted, queued as `{ upc, mode: category }` with no `category`, and cache-marked |

## Left out

- Network calls, HTTP plumbing and JSON parsing. Keepa fetches are oracle parameters, and request bodies are datatypes.
- Concurrency of the queue workers. BullMQ's own retries, back-off and `jobId` de-duplication are not modelled either; the producer's queue is a list.
- Floating point. Amounts are exact reals, so NaN and infinity cases are absent. A zero buy price gives `roi` None instead of an infinite value. In the crash prediction, a zero first price with a non-zero last price gives an infinite drop, and the model writes out the clamp that follows it. When both prices are 0 the source computes 0/0, NaN, which survives the clamp and makes the score NaN; the model gives a drop of 0 there.
- Timestamps. `new Date()` becomes the parameter `now`, or is dropped from documents where it is only stored.
- Stores. MongoDB `$set` upserts are modelled as writing the whole document under its filter key. Each handler gets its own typed store, where the source shares one `products` collection between handlers. The batch worker keeps the merge of fields, since its documents vary. The category scan also spreads documents whose optional fields vary, but its store replaces the record (next line).
- ScanCategory.CategoryStore.Handle: the `$set` of the spread item is modelled as replacing the whole record, so a field the later item lacks (an absent `weight`, `bsr` or `price`, say) ends up absent, where MongoDB would keep the stored value. Which products are written, their `asin` keys and the fields the item carries are modelled; fields of the response outside the item's modelled ones are not.
- Cache expiry. Entries record their time-to-live but never expire. `pages/api/lib/redis.js` ignores the time-to-live its callers pass and always uses a day; the model follows it.
- ScanQueue.KeepaQueue.ProcessJob: cached values are either a product document or the `true` marker. The JSON round trip through the cache is taken to return the document unchanged.
- ScanQueue.KeepaQueue.ProcessJob: database and cache writes never fail in the model. In the source, `pages/api/lib/redis.js` and the MongoDB calls do not catch, so a write that throws fails the job with the earlier writes kept, and the queue's `attempts: 3` runs it again.
- KeepaWorker.Worker.HandleJob: database writes never fail in the model. In the source a throwing `updateOne` or `insertOne` fails the job, and an upsert done before a failing alert insert stays.
- CategoryIntake.CategoryScan.Handle: the 500 response for database and cache errors is not modelled. The queue itself (BullMQ options, retries) is a list of job payloads.
- Error paths that the source's `catch` blocks turn into 500 responses. Only the category fetch in `scanCategory` is modelled. In `getCategoryProducts` a fetch error is uncaught, so it has no response in the model.
- Text.ToLower: only ASCII letters are lower-cased. Unicode case mapping is not modelled.
- Category rank maps: inherited object-prototype keys (such as `constructor`) are not modelled.
- Aliases that only forward to a modelled function are not modelled separately: `getAmazonBuyBoxPercent`, `getSalesVelocity`, `calculateCompetitionScore`, and `getCrashRisk`, which divides the crash score by 100.
- `calculateBuyBoxOwnership` and `computeSellerTrend` call a function that is not defined in the source (`callKeepaAPIByASIN`).
- Functions that combine floating-point helpers are not modelled: `calculatePriceStability` (square root), `calculateScores`, `opportunityScore` and `calculateOpportunity`. `calculateOpportunity` uses the same arithmetic as the UPC worker, which is modelled as Scoring.OpportunityScore.
- Several fetch helpers are not modelled: `fetchKeepaProduct`, `callKeepaAPI` beyond its normaliser, and the extra normaliser fields that no modelled function reads. Configuration files (`config/brands.js`, `config/amazon.js`) are not part of this model; their lists are parameters.
