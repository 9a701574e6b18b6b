/**
 * The per-ASIN job handler of lib/worker/keepaWorker.js: skip ASINs already stored for the
 * marketplace, fetch the product, apply the hard filters, predict a price crash, compute
 * the rank score and its alerts, upsert the product document and log the alerts.
 *
 * The fetch (`fetchKeepaProduct`) is the `fetched` parameter; the brand lists and the
 * Amazon seller id of each marketplace, which live in configuration files outside this
 * model, are parameters too, as is the current month.
 */
module KeepaWorker {
  import opened Wrappers
  import opened FilterChain
  import opened BrandCheck
  import Signals
  import opened Alerts

  datatype WorkerJob = WorkerJob(asin: string, marketplace: string, category: string)

  /** The record `fetchKeepaProduct` returns. It never sets the last four fields; they are kept
      because the handler reads them, so their defaults show in the model. */
  datatype FetchedProduct = FetchedProduct(
    title: string, brand: string, hazmat: bool, salesRank: Option<int>,
    buyBoxPrice: Option<real>, buyBoxSellerId: Option<string>,
    fbaFee: Option<real>, referralFee: Option<real>, weight: Option<real>, size: string,
    priceHistory: seq<real>, rankHistory: seq<int>,
    netProfit: Option<real>, salesVelocity: Option<real>, competitionScore: Option<real>,
    amazonBuyBoxPercent: Option<real>)

  /** Brand lists (already lower-case in configuration) and the Amazon seller id per marketplace. */
  datatype WorkerConfig = WorkerConfig(blacklist: seq<string>, whitelist: seq<string>, amazonSellerIds: map<string, string>)

  /** The document upserted into `products`, keyed by (asin, marketplace). */
  datatype WorkerDoc = WorkerDoc(
    asin: string, marketplace: string, category: string, title: string, brand: string,
    buyBoxPrice: Option<real>, buyBoxSellerId: Option<string>, fbaFee: Option<real>,
    referralFee: Option<real>, weight: Option<real>, size: string, salesRank: Option<int>,
    profit: real, salesVelocity: real, crashRisk: int, rankScore: real, alerts: seq<string>)

  datatype WorkerAlert = WorkerAlert(asin: string, marketplace: string, alerts: seq<string>, rankScore: real)

  datatype JobResult = JobResult(asin: string, marketplace: string, rankScore: real)

  const MaxSalesRank := 150000

  /** lib/buyBoxCheck.js:3-5: the buy-box seller is the marketplace's Amazon seller. A fetched
      record has a null seller when none is known, which equals no configured id. */
  function IsAmazonOnBuyBox(buyBoxSellerId: Option<string>, marketplace: string, ids: map<string, string>): (on: bool)
    ensures on <==> marketplace in ids && buyBoxSellerId == Some(ids[marketplace])
  {
    marketplace in ids && buyBoxSellerId == Some(ids[marketplace])
  }

  const HardFilterOrder: seq<Reason> := [Hazmat, NoBuyBoxPrice, RankAboveCeiling, BrandRefused, AmazonBuyBox]

  predicate HardFilterFails(p: FetchedProduct, marketplace: string, cfg: WorkerConfig, r: Reason) {
    match r
    case Hazmat => p.hazmat
    case NoBuyBoxPrice => p.buyBoxPrice.None? || p.buyBoxPrice.value == 0.0
    case RankAboveCeiling => p.salesRank.Some? && p.salesRank.value > MaxSalesRank
    case BrandRefused => !IsBrandAllowed(p.brand, cfg.blacklist, cfg.whitelist)
    case AmazonBuyBox => IsAmazonOnBuyBox(p.buyBoxSellerId, marketplace, cfg.amazonSellerIds)
    case _ => false
  }

  /** lib/worker/keepaWorker.js:20-28, in order; a null sales rank compares false and passes. */
  function HardFilters(p: FetchedProduct, marketplace: string, cfg: WorkerConfig): (d: Decision)
    ensures d == FirstFailure(HardFilterOrder, r => HardFilterFails(p, marketplace, cfg, r))
    ensures d.Accept? <==>
      && !p.hazmat
      && p.buyBoxPrice.Some? && p.buyBoxPrice.value != 0.0
      && (p.salesRank.None? || p.salesRank.value <= MaxSalesRank)
      && IsBrandAllowed(p.brand, cfg.blacklist, cfg.whitelist)
      && !IsAmazonOnBuyBox(p.buyBoxSellerId, marketplace, cfg.amazonSellerIds)
  {
    if p.hazmat then Reject(Hazmat)
    else if p.buyBoxPrice.None? || p.buyBoxPrice.value == 0.0 then Reject(NoBuyBoxPrice)
    else if p.salesRank.Some? && p.salesRank.value > MaxSalesRank then Reject(RankAboveCeiling)
    else if !IsBrandAllowed(p.brand, cfg.blacklist, cfg.whitelist) then Reject(BrandRefused)
    else if IsAmazonOnBuyBox(p.buyBoxSellerId, marketplace, cfg.amazonSellerIds) then Reject(AmazonBuyBox)
    else Accept
  }

  /** The crash prediction of a fetched record; it has no `category`, so the seasonal term is 0. */
  function CrashOf(p: FetchedProduct, month: int): Signals.CrashPrediction {
    Signals.PredictPriceCrash(p.priceHistory, p.rankHistory, p.buyBoxSellerId, "", month)
  }

  /** profit · salesVelocity · (1 − crashRisk) · competitionMultiplier, with the defaults 0, 1, 1. */
  function RankScore(p: FetchedProduct, crashRisk: int): real {
    p.netProfit.GetOr(0.0) * p.salesVelocity.GetOr(1.0) * (1.0 - crashRisk as real) * p.competitionScore.GetOr(1.0)
  }

  function DocOf(job: WorkerJob, p: FetchedProduct, month: int): WorkerDoc {
    var crashRisk := CrashOf(p, month).score;
    var profit := p.netProfit.GetOr(0.0);
    WorkerDoc(job.asin, job.marketplace, job.category, p.title, p.brand, p.buyBoxPrice, p.buyBoxSellerId,
              p.fbaFee, p.referralFee, p.weight, p.size, p.salesRank, profit, p.salesVelocity.GetOr(1.0),
              crashRisk, RankScore(p, crashRisk), AlertList(profit, crashRisk, p.amazonBuyBoxPercent))
  }

  /** The document the handler writes, or None when it returns early
      (lib/worker/keepaWorker.js:11-72). */
  function Evaluate(job: WorkerJob, stored: bool, fetched: Option<FetchedProduct>, cfg: WorkerConfig, month: int): Option<WorkerDoc> {
    if stored || fetched.None? || HardFilters(fetched.value, job.marketplace, cfg).Reject? then None
    else Some(DocOf(job, fetched.value, month))
  }

  class Worker {
    var products: map<(string, string), WorkerDoc>   // keyed by (asin, marketplace)
    var alerts: seq<WorkerAlert>

    /** Every document sits under its own (asin, marketplace) and every alert entry is nonempty. */
    predicate Valid()
      reads this
    {
      && (forall k :: k in products ==> products[k].asin == k.0 && products[k].marketplace == k.1)
      && (forall a :: a in alerts ==> |a.alerts| > 0)
    }

    constructor ()
      ensures Valid() && products == map[] && alerts == []
    {
      products := map[];
      alerts := [];
    }

    /** lib/worker/keepaWorker.js:7-93 */
    method HandleJob(job: WorkerJob, fetched: Option<FetchedProduct>, cfg: WorkerConfig, month: int) returns (out: Option<JobResult>)
      requires Valid()
      modifies this
      ensures Valid()
      ensures var doc := Evaluate(job, (job.asin, job.marketplace) in old(products), fetched, cfg, month);
        && (doc.None? ==> out.None? && products == old(products) && alerts == old(alerts))
        && (doc.Some? ==>
              && out == Some(JobResult(job.asin, job.marketplace, doc.value.rankScore))
              && products == old(products)[(job.asin, job.marketplace) := doc.value]
              && alerts == old(alerts) + (if |doc.value.alerts| > 0
                                          then [WorkerAlert(job.asin, job.marketplace, doc.value.alerts, doc.value.rankScore)]
                                          else []))
    {
      if (job.asin, job.marketplace) in products {
        return None;
      }
      if fetched.None? {
        return None;
      }
      var product := fetched.value;

      if product.hazmat { return None; }
      if product.buyBoxPrice.None? || product.buyBoxPrice.value == 0.0 { return None; }
      if product.salesRank.Some? && product.salesRank.value > MaxSalesRank { return None; }
      if !IsBrandAllowed(product.brand, cfg.blacklist, cfg.whitelist) { return None; }
      if IsAmazonOnBuyBox(product.buyBoxSellerId, job.marketplace, cfg.amazonSellerIds) { return None; }

      assert HardFilters(product, job.marketplace, cfg).Accept?;
      var productData := ScoreProduct(job, product, month);
      Record(productData);
      return Some(JobResult(job.asin, job.marketplace, productData.rankScore));
    }

    /** The upsert keyed by (asin, marketplace) and the alert entry when the list is nonempty
        (lib/worker/keepaWorker.js:75-90). */
    method Record(doc: WorkerDoc)
      requires Valid()
      modifies this
      ensures Valid()
      ensures products == old(products)[(doc.asin, doc.marketplace) := doc]
      ensures alerts == old(alerts) + (if |doc.alerts| > 0 then [WorkerAlert(doc.asin, doc.marketplace, doc.alerts, doc.rankScore)] else [])
    {
      products := products[(doc.asin, doc.marketplace) := doc];
      if |doc.alerts| > 0 {
        alerts := alerts + [WorkerAlert(doc.asin, doc.marketplace, doc.alerts, doc.rankScore)];
      }
    }
  }

  /** Crash prediction, scoring, alerts and the product document (lib/worker/keepaWorker.js:31-72). */
  method ScoreProduct(job: WorkerJob, product: FetchedProduct, month: int) returns (productData: WorkerDoc)
    ensures productData == DocOf(job, product, month)
  {
    var crash := Signals.PredictPriceCrash(product.priceHistory, product.rankHistory, product.buyBoxSellerId, "", month);
    var crashRisk := crash.score;

    var profit := product.netProfit.GetOr(0.0);
    var salesVelocity := product.salesVelocity.GetOr(1.0);
    var competitionMultiplier := product.competitionScore.GetOr(1.0);
    var rankScore := profit * salesVelocity * (1.0 - crashRisk as real) * competitionMultiplier;

    var alertList := BuildAlerts(profit, crashRisk, product.amazonBuyBoxPercent);

    productData := WorkerDoc(job.asin, job.marketplace, job.category, product.title, product.brand,
                             product.buyBoxPrice, product.buyBoxSellerId, product.fbaFee, product.referralFee,
                             product.weight, product.size, product.salesRank, profit, salesVelocity,
                             crashRisk, rankScore, alertList);
  }

  /** The sales-rank ceiling is inclusive and a missing rank passes it. */
  lemma SalesRankBoundary(p: FetchedProduct, marketplace: string, cfg: WorkerConfig)
    requires HardFilters(p, marketplace, cfg).Accept?
    ensures HardFilters(p.(salesRank := Some(MaxSalesRank)), marketplace, cfg).Accept?
    ensures HardFilters(p.(salesRank := None), marketplace, cfg).Accept?
    ensures HardFilters(p.(salesRank := Some(MaxSalesRank + 1)), marketplace, cfg) == Reject(RankAboveCeiling)
  {
  }

  /** The crash score is on a 0..100 scale but enters the rank score as a probability: with a
      positive profit, velocity and multiplier, the rank score is positive only for a crash
      score of 0, and any crash score of 2 or more turns it negative. */
  lemma CrashScaleFlipsRankScore(p: FetchedProduct, crashRisk: int)
    requires crashRisk >= 0
    requires p.netProfit.GetOr(0.0) > 0.0 && p.salesVelocity.GetOr(1.0) > 0.0 && p.competitionScore.GetOr(1.0) > 0.0
    ensures RankScore(p, crashRisk) > 0.0 <==> crashRisk == 0
    ensures crashRisk >= 2 ==> RankScore(p, crashRisk) < 0.0
  {
    var a := p.netProfit.GetOr(0.0) * p.salesVelocity.GetOr(1.0);
    var c := p.competitionScore.GetOr(1.0);
    assert a > 0.0;
    var f := 1.0 - crashRisk as real;
    assert RankScore(p, crashRisk) == (a * f) * c;
    if crashRisk == 0 {
      assert a * f > 0.0;
    } else if crashRisk == 1 {
      assert a * f == 0.0;
    } else {
      assert a * f < 0.0;
    }
  }

  /** A record shaped as `fetchKeepaProduct` builds it carries no profit, velocity, multiplier or
      Amazon share, so every stored rank score is 0 and only the crash alert can fire. */
  lemma FetchedRecordScoresZero(job: WorkerJob, p: FetchedProduct, month: int)
    requires p.netProfit.None? && p.salesVelocity.None? && p.competitionScore.None? && p.amazonBuyBoxPercent.None?
    ensures DocOf(job, p, month).rankScore == 0.0
    ensures DocOf(job, p, month).alerts == (if CrashOf(p, month).score >= 1 then [HighCrashRisk] else [])
  {
  }

  /** A stored (asin, marketplace) ends the job before the fetch is even looked at. */
  lemma StoredJobWritesNothing(job: WorkerJob, fetched: Option<FetchedProduct>, cfg: WorkerConfig, month: int)
    ensures Evaluate(job, true, fetched, cfg, month).None?
  {
  }
}
