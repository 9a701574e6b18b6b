/**
 * The competition-moat scorers of lib/keepaUtils.js: how hard it is for another
 * seller to take the buy box, as a score on 0..100 (or a multiplier on [0.5,1]).
 */
module Competition {
  import opened Wrappers
  import opened BuyBox

  /** JavaScript `x || d` on an optional count: absent and zero are both falsy. */
  function IntOr(x: Option<int>, d: int): (n: int)
    ensures x.Some? && x.value != 0 ==> n == x.value
    ensures x.None? || x.value == 0 ==> n == d
  {
    if x.Some? && x.value != 0 then x.value else d
  }

  function Clamp100(x: int): (c: int)
    ensures 0 <= c <= 100
    ensures 0 <= x <= 100 ==> c == x
    ensures x < 0 ==> c == 0
    ensures x > 100 ==> c == 100
  {
    if x < 0 then 0 else if x > 100 then 100 else x
  }

  // ---------------------------------------------------------------------------
  // getCompetitionMoat (first half of lib/keepaUtils.js)
  // ---------------------------------------------------------------------------

  /** The raw product fields read by `getCompetitionMoat`. */
  datatype MoatProduct = MoatProduct(stats: Option<Stats>, hazmat: Option<bool>, packageWeight: Option<real>)

  function FbaCount(stats: Option<Stats>): int {
    if stats.Some? then stats.value.offerCountFBA.GetOr(0) else 0
  }

  /** lib/keepaUtils.js:88-97: 30 for at most three FBA sellers, 30 for an Amazon share under 5%,
      10 for not hazmat, 10 for a package over 2 kg; the cap at 100 is never reached. */
  function CompetitionMoat(p: MoatProduct): (m: int)
    ensures 0 <= m <= 80
    ensures m == 80 <==> (FbaCount(p.stats) <= 3 && AmazonBuyBoxShare(p.stats) < 5.0
                          && p.hazmat != Some(true) && p.packageWeight.GetOr(0.0) > 2000.0)
    ensures m == 0 <==> (FbaCount(p.stats) > 3 && AmazonBuyBoxShare(p.stats) >= 5.0
                         && p.hazmat == Some(true) && p.packageWeight.GetOr(0.0) <= 2000.0)
  {
    var score :=
      (if FbaCount(p.stats) <= 3 then 30 else 0)
      + (if AmazonBuyBoxShare(p.stats) < 5.0 then 30 else 0)
      + (if p.hazmat != Some(true) then 10 else 0)
      + (if p.packageWeight.GetOr(0.0) > 2000.0 then 10 else 0);
    if score < 100 then score else 100
  }

  // ---------------------------------------------------------------------------
  // calculateCompetitionMoat
  // ---------------------------------------------------------------------------

  /** lib/keepaUtils.js:463-471: 100 minus 10 per seller (offerCount, else totalSellers, else 1),
      minus 20 when Amazon US holds the buy box, clamped to [0,100]. */
  function CalculateCompetitionMoat(offerCount: Option<int>, totalSellers: Option<int>, buyBoxSellerId: Option<string>): (m: int)
    ensures 0 <= m <= 100
    ensures IntOr(offerCount, IntOr(totalSellers, 1)) >= 10 ==> m == 0
    ensures buyBoxSellerId == Some(AmazonUs) && IntOr(offerCount, IntOr(totalSellers, 1)) >= 8 ==> m == 0
    ensures buyBoxSellerId != Some(AmazonUs) && IntOr(offerCount, IntOr(totalSellers, 1)) == 1 ==> m == 90
  {
    var sellerCount := IntOr(offerCount, IntOr(totalSellers, 1));
    var score := 100 - sellerCount * 10 - (if buyBoxSellerId == Some(AmazonUs) then 20 else 0);
    Clamp100(score)
  }

  /** More sellers never raise the moat, and Amazon on the buy box never raises it either. */
  lemma CalculateMoatMonotone(n1: int, n2: int, s1: Option<string>, s2: Option<string>)
    requires n1 <= n2
    requires s1 == Some(AmazonUs) ==> s2 == Some(AmazonUs)
    ensures CalculateCompetitionMoat(Some(n2), None, s2) <= CalculateCompetitionMoat(Some(n1), None, s1)
  {
  }

  // ---------------------------------------------------------------------------
  // getCompetitionMoatScore
  // ---------------------------------------------------------------------------

  /** The product fields read by `getCompetitionMoatScore`. */
  datatype ScoredProduct = ScoredProduct(
    stats: Option<Stats>,
    offerCountFBA: Option<int>,
    buyBoxSellerId: Option<string>,
    buyBoxShareAmazon: Option<real>,
    brand: string,
    hazmat: Option<bool>,
    packageWeight: Option<real>,
    packageVolume: Option<real>,
    buyBoxWinnerCount: Option<int>)

  datatype BrandConfig = BrandConfig(whitelist: Option<seq<string>>, blacklist: Option<seq<string>>)

  datatype MoatLevel = StrongMoat | MediumMoat | WeakMoat

  datatype MoatScore = MoatScore(score: int, level: MoatLevel)

  /** `product.stats?.offerCountFBA ?? product.offerCountFBA ?? 0` */
  function FbaSellers(p: ScoredProduct): int {
    if p.stats.Some? && p.stats.value.offerCountFBA.Some? then p.stats.value.offerCountFBA.value
    else p.offerCountFBA.GetOr(0)
  }

  function FbaPoints(p: ScoredProduct): int {
    var fba := FbaSellers(p);
    if fba <= 2 then 30 else if fba <= 5 then 20 else if fba <= 10 then 10 else 0
  }

  /** An absent `buyBoxShareAmazon` compares false against 5. */
  function AmazonPoints(p: ScoredProduct): int {
    if p.buyBoxSellerId != Some(AmazonUs) then 25
    else if p.buyBoxShareAmazon.Some? && p.buyBoxShareAmazon.value < 5.0 then 10
    else 0
  }

  function BrandPoints(p: ScoredProduct, cfg: BrandConfig): int {
    if cfg.whitelist.Some? && p.brand in cfg.whitelist.value then 15
    else if cfg.blacklist.Some? && p.brand in cfg.blacklist.value then -20
    else 0
  }

  function PhysicalPoints(p: ScoredProduct): int {
    (if p.hazmat == Some(false) then 5 else 0)
    + (if p.packageWeight.GetOr(0.0) > 2000.0 then 5 else 0)
    + (if p.packageVolume.GetOr(0.0) > 30000.0 then 5 else 0)
  }

  /** An absent `buyBoxWinnerCount` compares false against both thresholds. */
  function StabilityPoints(p: ScoredProduct): int {
    if p.buyBoxWinnerCount.Some? && p.buyBoxWinnerCount.value <= 2 then 15
    else if p.buyBoxWinnerCount.Some? && p.buyBoxWinnerCount.value <= 4 then 8
    else 0
  }

  /** The unclamped score: the five independent contributions added up. */
  function RawMoatScore(p: ScoredProduct, cfg: BrandConfig): int {
    FbaPoints(p) + AmazonPoints(p) + BrandPoints(p, cfg) + PhysicalPoints(p) + StabilityPoints(p)
  }

  function LevelOf(score: int): (l: MoatLevel)
    ensures l == StrongMoat <==> score >= 70
    ensures l == MediumMoat <==> 50 <= score < 70
  {
    if score >= 70 then StrongMoat else if score >= 50 then MediumMoat else WeakMoat
  }

  /** lib/keepaUtils.js:479-510: the score accumulated step by step, returned clamped,
      with the level taken from the unclamped score. */
  method GetCompetitionMoatScore(p: ScoredProduct, cfg: BrandConfig) returns (r: MoatScore)
    ensures r.score == Clamp100(RawMoatScore(p, cfg))
    ensures r.level == LevelOf(RawMoatScore(p, cfg))
  {
    var score := 0;

    var fba := if p.stats.Some? && p.stats.value.offerCountFBA.Some? then p.stats.value.offerCountFBA.value
               else p.offerCountFBA.GetOr(0);
    if fba <= 2 { score := score + 30; }
    else if fba <= 5 { score := score + 20; }
    else if fba <= 10 { score := score + 10; }
    assert score == FbaPoints(p);

    var amazonBB := p.buyBoxSellerId == Some(AmazonUs);
    if !amazonBB { score := score + 25; }
    else if p.buyBoxShareAmazon.Some? && p.buyBoxShareAmazon.value < 5.0 { score := score + 10; }
    assert score == FbaPoints(p) + AmazonPoints(p);

    if cfg.whitelist.Some? && p.brand in cfg.whitelist.value { score := score + 15; }
    else if cfg.blacklist.Some? && p.brand in cfg.blacklist.value { score := score - 20; }
    assert score == FbaPoints(p) + AmazonPoints(p) + BrandPoints(p, cfg);

    if p.hazmat == Some(false) { score := score + 5; }
    if p.packageWeight.GetOr(0.0) > 2000.0 { score := score + 5; }
    if p.packageVolume.GetOr(0.0) > 30000.0 { score := score + 5; }
    assert score == FbaPoints(p) + AmazonPoints(p) + BrandPoints(p, cfg) + PhysicalPoints(p);

    if p.buyBoxWinnerCount.Some? && p.buyBoxWinnerCount.value <= 2 { score := score + 15; }
    else if p.buyBoxWinnerCount.Some? && p.buyBoxWinnerCount.value <= 4 { score := score + 8; }
    assert score == RawMoatScore(p, cfg);

    var clamped := if 100 < score then 100 else score;
    clamped := if 0 > clamped then 0 else clamped;
    var level := if score >= 70 then StrongMoat else if score >= 50 then MediumMoat else WeakMoat;
    r := MoatScore(clamped, level);
  }

  /** The raw score lies in [-20,100], so the upper clamp never bites. */
  lemma RawMoatScoreRange(p: ScoredProduct, cfg: BrandConfig)
    ensures -20 <= RawMoatScore(p, cfg) <= 100
  {
  }

  /** Although the level is computed before clamping, it always agrees with the level of the
      returned (clamped) score. */
  lemma MoatLevelMatchesClampedScore(p: ScoredProduct, cfg: BrandConfig)
    ensures LevelOf(RawMoatScore(p, cfg)) == LevelOf(Clamp100(RawMoatScore(p, cfg)))
  {
    RawMoatScoreRange(p, cfg);
  }

  /** The whitelist wins over the blacklist; a blacklisted brand off the whitelist costs 35 points
      against a whitelisted one. */
  lemma BrandGateOrder(p: ScoredProduct, wl: seq<string>, bl: seq<string>)
    requires p.brand in bl
    ensures p.brand in wl ==> RawMoatScore(p, BrandConfig(Some(wl), Some(bl))) == RawMoatScore(p, BrandConfig(Some(wl), None))
    ensures p.brand !in wl ==> RawMoatScore(p, BrandConfig(Some(wl), Some(bl))) + 35 == RawMoatScore(p, BrandConfig(Some([p.brand]), None))
  {
  }

  // ---------------------------------------------------------------------------
  // computeCompetitionMoat
  // ---------------------------------------------------------------------------

  /** lib/keepaUtils.js:517-522: 50, less 10 for more than five variations and 10 for more than
      ten sellers (sellerCount, else totalSellers, else 0). */
  function ComputeCompetitionMoat(variationCount: Option<int>, sellerCount: Option<int>, totalSellers: Option<int>): (m: int)
    ensures m in {30, 40, 50}
    ensures m == 50 <==> (variationCount.None? || variationCount.value <= 5) && IntOr(sellerCount, IntOr(totalSellers, 0)) <= 10
    ensures m == 30 <==> variationCount.Some? && variationCount.value > 5 && IntOr(sellerCount, IntOr(totalSellers, 0)) > 10
  {
    var score := 50
      - (if variationCount.Some? && variationCount.value > 5 then 10 else 0)
      - (if IntOr(sellerCount, IntOr(totalSellers, 0)) > 10 then 10 else 0);
    if score > 0 then score else 0
  }

  // ---------------------------------------------------------------------------
  // getCompetitionMultiplier
  // ---------------------------------------------------------------------------

  /** lib/keepaUtils.js:529-537: one minus Amazon's assumed share (an equal split among
      totalSellers, else offerCount, else 1) when "Amazon" is among the buy-box owners,
      never below 0.5. */
  function GetCompetitionMultiplier(totalSellers: Option<int>, offerCount: Option<int>, buyBoxOwners: seq<string>): (k: real)
    ensures k >= 0.5
    ensures "Amazon" !in buyBoxOwners ==> k == 1.0
    ensures IntOr(totalSellers, IntOr(offerCount, 1)) > 0 ==> k <= 1.0
    ensures "Amazon" in buyBoxOwners && IntOr(totalSellers, IntOr(offerCount, 1)) > 0 ==>
              k == if IntOr(totalSellers, IntOr(offerCount, 1)) <= 2 then 0.5
                   else 1.0 - 1.0 / IntOr(totalSellers, IntOr(offerCount, 1)) as real
  {
    var n := IntOr(totalSellers, IntOr(offerCount, 1));
    var amazonBuyBoxPercent := if "Amazon" in buyBoxOwners then 100.0 / n as real else 0.0;
    var k := 1.0 - amazonBuyBoxPercent / 100.0;
    if k > 0.5 then k else 0.5
  }
}
