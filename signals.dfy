/**
 * Market signals of lib/keepaUtils.js: price-crash risk, sales velocity, the FBA seller
 * trend and Amazon's restock risk. The current month, which the source reads from the
 * clock, is a parameter.
 */
module Signals {
  import opened Wrappers
  import opened Rounding
  import opened BuyBox
  import KeepaProduct

  // ---------------------------------------------------------------------------
  // predictPriceCrash
  // ---------------------------------------------------------------------------

  datatype CrashLevel = Unknown | Low | Medium | High

  datatype CrashPrediction = CrashPrediction(score: int, level: CrashLevel)

  function Sum(xs: seq<int>): real {
    if xs == [] then 0.0 else Sum(xs[..|xs| - 1]) + xs[|xs| - 1] as real
  }

  /** The sum of squared deviations from `m`. */
  function SquaredDeviations(xs: seq<int>, m: real): real {
    if xs == [] then 0.0 else SquaredDeviations(xs[..|xs| - 1], m) + (xs[|xs| - 1] as real - m) * (xs[|xs| - 1] as real - m)
  }

  lemma {:induction false} SquaredDeviationsNonNegative(xs: seq<int>, m: real)
    ensures SquaredDeviations(xs, m) >= 0.0
  {
    if xs != [] {
      SquaredDeviationsNonNegative(xs[..|xs| - 1], m);
    }
  }

  /** Population variance of the sales ranks; an empty list gives 0 (the source's `NaN || 0`). */
  function RankVariance(ranks: seq<int>): (v: real)
    ensures v >= 0.0
  {
    if ranks == [] then 0.0
    else
      var mean := Sum(ranks) / |ranks| as real;
      SquaredDeviationsNonNegative(ranks, mean);
      SquaredDeviations(ranks, mean) / |ranks| as real
  }

  /** The relative drop from the first to the last price, in percent, clamped to [0,100].
      A first price of 0 divides by zero in the source: a negative last price then gives
      +Infinity (clamped to 100) and a positive one -Infinity (clamped to 0). Both prices 0
      give 0/0, NaN, which the clamp passes on; this model gives 0 there. */
  function DropScore(first: real, last: real): (d: real)
    ensures 0.0 <= d <= 100.0
    ensures first > 0.0 && last >= first ==> d == 0.0
    ensures first > 0.0 && 0.0 <= last <= first ==> d == (first - last) / first * 100.0
  {
    if first == 0.0 then (if last < 0.0 then 100.0 else 0.0)
    else
      var drop := (first - last) / first * 100.0;
      if drop < 0.0 then 0.0 else if drop > 100.0 then 100.0 else drop
  }

  /** A rank history of at most one entry has no variance. */
  lemma SteadyRankHasNoVariance(ranks: seq<int>)
    ensures |ranks| <= 1 ==> RankVariance(ranks) == 0.0
  {
    if |ranks| == 1 {
      assert ranks[..0] == [];
      assert Sum(ranks) == ranks[0] as real;
      var mean := Sum(ranks) / 1.0;
      assert mean == ranks[0] as real;
      assert SquaredDeviations(ranks, mean) == 0.0;
    }
  }

  /** `Math.min(100, variance / 1000)` */
  function VolatilityScore(ranks: seq<int>): (s: real)
    ensures 0.0 <= s <= 100.0
    ensures |ranks| <= 1 ==> s == 0.0
  {
    SteadyRankHasNoVariance(ranks);
    var v := RankVariance(ranks) / 1000.0;
    if v < 100.0 then v else 100.0
  }

  function AmazonImpact(buyBoxSellerId: Option<string>): (i: real)
    ensures i == 30.0 <==> buyBoxSellerId == Some(AmazonUs)
    ensures i == 0.0 <==> buyBoxSellerId != Some(AmazonUs)
  {
    if buyBoxSellerId == Some(AmazonUs) then 30.0 else 0.0
  }

  function SeasonalFactor(month: int, category: string): (f: real)
    ensures f == 10.0 <==> (month == 11 || month == 12) && category == "toys"
    ensures f == 0.0 <==> !((month == 11 || month == 12) && category == "toys")
  {
    if month in [11, 12] && category == "toys" then 10.0 else 0.0
  }

  /** The weighted total 0.4·drop + 0.3·volatility + 0.2·amazon + 0.1·seasonal. */
  function CrashTotal(prices: seq<real>, ranks: seq<int>, buyBoxSellerId: Option<string>, category: string, month: int): (t: real)
    requires |prices| >= 2
    ensures 0.0 <= t <= 77.0
  {
    0.4 * DropScore(prices[0], prices[|prices| - 1])
    + 0.3 * VolatilityScore(ranks)
    + 0.2 * AmazonImpact(buyBoxSellerId)
    + 0.1 * SeasonalFactor(month, category)
  }

  function CrashLevelOf(total: real): (l: CrashLevel)
    ensures l == High <==> total > 70.0
    ensures l == Medium <==> 40.0 < total <= 70.0
    ensures l == Low <==> total <= 40.0
  {
    if total > 70.0 then High else if total > 40.0 then Medium else Low
  }

  /** lib/keepaUtils.js:604-640, with the price and rank histories already selected and the month
      passed in. */
  function PredictPriceCrash(prices: seq<real>, ranks: seq<int>, buyBoxSellerId: Option<string>, category: string, month: int): (c: CrashPrediction)
    ensures |prices| < 2 <==> c == CrashPrediction(0, Unknown)
    ensures 0 <= c.score <= 77
    ensures |prices| >= 2 ==>
      var t := CrashTotal(prices, ranks, buyBoxSellerId, category, month);
      c.level == CrashLevelOf(t) && t - 0.5 < c.score as real <= t + 0.5
  {
    if |prices| < 2 then CrashPrediction(0, Unknown)
    else
      var total := CrashTotal(prices, ranks, buyBoxSellerId, category, month);
      CrashPrediction(JsRound(total), CrashLevelOf(total))
  }

  /** Without a price drop the total is at most 0.3·100 + 0.2·30 + 0.1·10 = 37, so the level is
      always low: a high level needs the price to have fallen. */
  lemma NoDropMeansLowCrashLevel(prices: seq<real>, ranks: seq<int>, buyBoxSellerId: Option<string>, category: string, month: int)
    requires |prices| >= 2 && prices[0] > 0.0 && prices[|prices| - 1] >= prices[0]
    ensures PredictPriceCrash(prices, ranks, buyBoxSellerId, category, month).level == Low
    ensures PredictPriceCrash(prices, ranks, buyBoxSellerId, category, month).score <= 37
  {
  }

  /** A fall to half the first price with a steady rank and no other factor scores exactly 20. */
  lemma HalvedPriceScenario(first: real, ranks: seq<int>)
    requires first > 0.0 && |ranks| <= 1
    ensures PredictPriceCrash([first, first / 2.0], ranks, None, "", 1) == CrashPrediction(20, Low)
  {
    assert first - first / 2.0 == first / 2.0;
    assert (first / 2.0) / first == 0.5;
    assert DropScore(first, first / 2.0) == 50.0;
  }

  // ---------------------------------------------------------------------------
  // calculateSalesVelocity
  // ---------------------------------------------------------------------------

  /** `productEU.salesRanks` as the velocity reads it: absent, an array of ranks, or Keepa's
      object keyed by category id, which the normaliser passes through unchanged. */
  datatype SalesRanks = NoRanks | RankList(ranks: seq<int>) | RanksByCategory

  /** The `salesRanks` field of a normalised record: Keepa's object when the response has one. */
  function NormalizedSalesRanks(raw: KeepaProduct.RawProduct): SalesRanks {
    if raw.salesRanks.Some? then RanksByCategory else NoRanks
  }

  /** At least two ranks, and the last is below the first. */
  predicate RankImproved(ranks: seq<int>) {
    |ranks| >= 2 && ranks[|ranks| - 1] < ranks[0]
  }

  /** lib/keepaUtils.js:680-686: the ranks are `salesRanks || history?.salesRank || []` (an
      array is truthy even when empty); 1 when they improved (fell) from first to last entry,
      else 0.5. On the object form `.length` is undefined, so the guard fails and the delta is
      NaN, which is not below 0: the answer is 0.5. */
  function CalculateSalesVelocity(salesRanks: SalesRanks, historyRanks: Option<seq<int>>): (v: real)
    ensures v == 0.5 || v == 1.0
    ensures salesRanks.RanksByCategory? ==> v == 0.5
    ensures salesRanks.RankList? ==> (v == 1.0 <==> RankImproved(salesRanks.ranks))
    ensures salesRanks.NoRanks? ==> (v == 1.0 <==> RankImproved(historyRanks.GetOr([])))
  {
    var chosen := if !salesRanks.NoRanks? then salesRanks
                  else if historyRanks.Some? then RankList(historyRanks.value)
                  else RankList([]);
    if chosen.RankList? then
      var ranks := chosen.ranks;
      if |ranks| < 2 then 0.5
      else
        var delta := ranks[|ranks| - 1] - ranks[0];
        if delta < 0 then 1.0 else 0.5
    else 0.5
  }

  /** A normalised record that carries Keepa's `salesRanks` object always gets the medium
      velocity 0.5, whatever its rank history; only one without it is judged on
      `history.salesRank`, the csv rank series. */
  lemma NormalizedVelocity(raw: KeepaProduct.RawProduct)
    ensures CalculateSalesVelocity(NormalizedSalesRanks(raw), Some(KeepaProduct.Normalize(raw).rankHistory)) ==
            if raw.salesRanks.Some? || !RankImproved(raw.rankCsv.GetOr([])) then 0.5 else 1.0
  {
  }

  // ---------------------------------------------------------------------------
  // getFBASellerTrend
  // ---------------------------------------------------------------------------

  datatype TrendRisk = HighTrend | MediumTrend | LowTrend

  datatype FbaTrend = FbaTrend(delta: int, risk: TrendRisk)

  function NowFba(stats: Option<Stats>): int {
    if stats.Some? then stats.value.offerCountFBA.GetOr(0) else 0
  }

  function Avg30Fba(stats: Option<Stats>): int {
    if stats.Some? then stats.value.offerCountFBA30.GetOr(NowFba(stats)) else NowFba(stats)
  }

  function Avg90Fba(stats: Option<Stats>): int {
    if stats.Some? then stats.value.offerCountFBA90.GetOr(Avg30Fba(stats)) else Avg30Fba(stats)
  }

  /** lib/keepaUtils.js:77-86: growth of the FBA seller count over its 30-day average. */
  function GetFBASellerTrend(stats: Option<Stats>): (t: FbaTrend)
    ensures t.delta + Avg30Fba(stats) == NowFba(stats)
    ensures t.risk == HighTrend <==> t.delta >= 3
    ensures t.risk == MediumTrend <==> 1 <= t.delta < 3
    ensures stats.None? || stats.value.offerCountFBA30.None? ==> t == FbaTrend(0, LowTrend)
  {
    var delta := NowFba(stats) - Avg30Fba(stats);
    FbaTrend(delta, if delta >= 3 then HighTrend else if delta >= 1 then MediumTrend else LowTrend)
  }

  // ---------------------------------------------------------------------------
  // getFBASellerTrendScore
  // ---------------------------------------------------------------------------

  datatype TrendStatus = HighRisk | MediumRisk | LowRisk

  datatype TrendScore = TrendScore(score: int, delta30: int, delta90: int, status: TrendStatus)

  function Points30(delta30: int): int {
    if delta30 >= 3 then 40
    else if delta30 == 2 then 25
    else if delta30 == 1 then 15
    else if delta30 == -1 then -10
    else if delta30 <= -2 then -20
    else 0
  }

  function Points90(delta90: int): int {
    if delta90 >= 3 then 20 else if delta90 <= -2 then -10 else 0
  }

  function StatusOf(score: int): (s: TrendStatus)
    ensures s == HighRisk <==> score >= 40
    ensures s == MediumRisk <==> 20 <= score < 40
  {
    if score >= 40 then HighRisk else if score >= 20 then MediumRisk else LowRisk
  }

  /** lib/keepaUtils.js:743-772: the 30-day trend points plus the 90-day confirmation. */
  method GetFBASellerTrendScore(stats: Option<Stats>) returns (r: TrendScore)
    ensures r.delta30 == NowFba(stats) - Avg30Fba(stats)
    ensures r.delta90 == NowFba(stats) - Avg90Fba(stats)
    ensures r.score == Points30(r.delta30) + Points90(r.delta90)
    ensures r.status == StatusOf(r.score)
  {
    var now := if stats.Some? then stats.value.offerCountFBA.GetOr(0) else 0;
    var avg30 := if stats.Some? then stats.value.offerCountFBA30.GetOr(now) else now;
    var avg90 := if stats.Some? then stats.value.offerCountFBA90.GetOr(avg30) else avg30;

    var delta30 := now - avg30;
    var delta90 := now - avg90;

    var score := 0;
    if delta30 >= 3 { score := score + 40; }
    else if delta30 == 2 { score := score + 25; }
    else if delta30 == 1 { score := score + 15; }
    else if delta30 == -1 { score := score - 10; }
    else if delta30 <= -2 { score := score - 20; }

    if delta90 >= 3 { score := score + 20; }
    else if delta90 <= -2 { score := score - 10; }

    var status := if score >= 40 then HighRisk else if score >= 20 then MediumRisk else LowRisk;
    r := TrendScore(score, delta30, delta90, status);
  }

  /** The score lies in [-30,60] and rises with each delta. */
  lemma TrendScoreBoundsAndMonotone(d30: int, d90: int, e30: int, e90: int)
    requires d30 <= e30 && d90 <= e90
    ensures -30 <= Points30(d30) + Points90(d90) <= 60
    ensures Points30(d30) + Points90(d90) <= Points30(e30) + Points90(e90)
  {
  }

  /** Exactly when the status is high risk: a jump of three or more sellers over the 30-day average
      that the 90-day figure does not contradict, or a jump of two confirmed by the 90-day figure. */
  lemma TrendHighRiskExactly(d30: int, d90: int)
    ensures StatusOf(Points30(d30) + Points90(d90)) == HighRisk <==>
              (d30 >= 3 && d90 > -2) || (d30 == 2 && d90 >= 3)
  {
  }

  // ---------------------------------------------------------------------------
  // getAmazonRestockRisk
  // ---------------------------------------------------------------------------

  const RiskyCategories: seq<string> := ["Grocery", "Electronics"]

  /** The product fields read by `getAmazonRestockRisk`: the chosen Amazon price list is
      `priceAmazon`, else `history.price`, else empty. */
  datatype RestockProduct = RestockProduct(stats: Option<Stats>, amazonPrices: seq<real>, category: string)

  function AmazonLastSeen(stats: Option<Stats>): LastSeen {
    if stats.Some? && stats.value.buyBoxStats.Some? && AmazonUs in stats.value.buyBoxStats.value
    then stats.value.buyBoxStats.value[AmazonUs].lastSeenDaysAgo
    else NotRecorded
  }

  /** An explicit `null` passes the `!== undefined` guard and then compares as 0, so it counts
      as seen within the last 30 days. */
  function HistoryRisk(lastSeen: LastSeen): int {
    match lastSeen
    case NotRecorded => 0
    case RecordedNull => 50
    case DaysAgo(d) => if d <= 30 then 50 else if d <= 90 then 30 else 0
  }

  function PriceRisk(prices: seq<real>): int {
    if |prices| > 0 && prices[|prices| - 1] > 0.0 then 30 else 0
  }

  function SellerRisk(stats: Option<Stats>): int {
    if stats.Some? && stats.value.amazonSellerCount.Some? && stats.value.amazonSellerCount.value > 0 then 20 else 0
  }

  function CategoryRisk(category: string): int {
    if category in RiskyCategories then 15 else 0
  }

  function RawRestockRisk(p: RestockProduct): int {
    HistoryRisk(AmazonLastSeen(p.stats)) + PriceRisk(p.amazonPrices) + SellerRisk(p.stats) + CategoryRisk(p.category)
  }

  /** lib/keepaUtils.js:706-736: the four risk contributions added up and capped at 100. */
  method GetAmazonRestockRisk(p: RestockProduct) returns (risk: int)
    ensures risk == if RawRestockRisk(p) < 100 then RawRestockRisk(p) else 100
  {
    risk := 0;

    var amazonBB := if p.stats.Some? && p.stats.value.buyBoxStats.Some? && AmazonUs in p.stats.value.buyBoxStats.value
                    then Some(p.stats.value.buyBoxStats.value[AmazonUs]) else None;
    if amazonBB.Some? && !amazonBB.value.lastSeenDaysAgo.NotRecorded? {
      // `null <= 30` holds in JavaScript: null compares as 0
      var days := if amazonBB.value.lastSeenDaysAgo.DaysAgo? then amazonBB.value.lastSeenDaysAgo.days else 0;
      if days <= 30 { risk := risk + 50; }
      else if days <= 90 { risk := risk + 30; }
    }
    assert risk == HistoryRisk(AmazonLastSeen(p.stats));

    if |p.amazonPrices| > 0 {
      var lastAmazonPrice := p.amazonPrices[|p.amazonPrices| - 1];
      if lastAmazonPrice > 0.0 { risk := risk + 30; }
    }

    if p.stats.Some? && p.stats.value.amazonSellerCount.Some? && p.stats.value.amazonSellerCount.value > 0 {
      risk := risk + 20;
    }

    if p.category in RiskyCategories {
      risk := risk + 15;
    }

    risk := if risk < 100 then risk else 100;
  }

  /** The raw risk can reach 115, and the result is the cap of 100 exactly when Amazon held the
      buy box in the last 30 days, still lists a positive price and has a seller count. */
  lemma RestockRiskSaturates(p: RestockProduct)
    ensures 0 <= RawRestockRisk(p) <= 115
    ensures RawRestockRisk(p) >= 100 <==>
              HistoryRisk(AmazonLastSeen(p.stats)) == 50 && PriceRisk(p.amazonPrices) == 30 && SellerRisk(p.stats) == 20
  {
  }

  /** The history contribution by what the Amazon entry records: a missing field adds
      nothing, while an explicit `null` adds as much as a sighting today. */
  lemma HistoryRiskByLastSeen(p: RestockProduct)
    ensures AmazonLastSeen(p.stats) == NotRecorded ==> HistoryRisk(AmazonLastSeen(p.stats)) == 0
    ensures AmazonLastSeen(p.stats) == RecordedNull ==> HistoryRisk(AmazonLastSeen(p.stats)) == HistoryRisk(DaysAgo(0)) == 50
    ensures HistoryRisk(AmazonLastSeen(p.stats)) == 50 <==>
              AmazonLastSeen(p.stats) == RecordedNull || (AmazonLastSeen(p.stats).DaysAgo? && AmazonLastSeen(p.stats).days <= 30)
  {
  }
}
