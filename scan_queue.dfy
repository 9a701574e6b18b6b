/**
 * The scan-queue worker and its producer (pages/api/lib/keepaQueue.js).
 *
 * A job names a UPC and a target marketplace (`mode`, "DE" by default). The worker
 * answers from the cache when the pair was already scored; otherwise it takes the US
 * record (from the cache or the catalog) and the target-market record (from the
 * catalog), drops the job unless both pass `filterProduct`, scores the arbitrage
 * opportunity, upserts the `products` and `opportunities` documents, caches the
 * product document and appends an alert document when any alert fires.
 *
 * The catalog lookup (`callKeepaAPI`) is a map from (upc, market) to the normalised
 * record it returns; the current month used by the crash predictor is a parameter.
 */
module ScanQueue {
  import opened Wrappers
  import opened KeepaProduct
  import opened FilterChain
  import opened KeepaFilters
  import Scoring
  import Signals
  import opened Alerts

  /** The job payload `{ upc, category, mode }`; an absent mode is "DE". */
  datatype ScanJob = ScanJob(upc: string, category: string, mode: Option<string>)

  /** A job on the queue: name "scan", the payload, its job id and its attempt budget. */
  datatype QueuedJob = QueuedJob(name: string, data: ScanJob, jobId: string, attempts: int)

  /** The document upserted into `products`. Timestamps are not modelled. */
  datatype ProductData = ProductData(
    upc: string, asin: string, market: string, category: string, title: string, brand: string,
    usPrice: Option<real>, euPrice: Option<real>, buyBoxPrice: Option<real>, salesRank: int,
    variationHash: string, status: string, opportunityScore: real)

  /** The document upserted into `opportunities`. */
  datatype Analysis = Analysis(
    upc: string, asin: string, category: string, market: string, opportunityScore: real,
    priceCrashScore: int, priceCrashLevel: Signals.CrashLevel, alerts: seq<string>)

  /** The document inserted into `alerts`. */
  datatype AlertDoc = AlertDoc(upc: string, asin: string, alerts: seq<string>)

  /** A cache value: the `true` marker written by the producers, or a product document. */
  datatype CacheValue = Marker | Stored(data: ProductData)

  /** A cache entry with the expiry, in seconds, that the cache helper gives it. */
  datatype CacheEntry = CacheEntry(value: CacheValue, ttl: int)

  /** What the handler returns: the cached value, null, or the two documents it wrote. */
  datatype JobOutcome = CachedResult(value: CacheValue) | Dropped | Scored(data: ProductData, analysis: Analysis)

  /** The cache helper of this worker stores every value for a day, whatever expiry the caller asks for. */
  const CacheTtl := 86400
  const ThrottleMs := 1200
  const JobAttempts := 3

  function Mode(job: ScanJob): string { job.mode.GetOr("DE") }

  /** `${upc}:${mode}` */
  function ResultKey(upc: string, mode: string): string { upc + ":" + mode }

  function ScannedKey(upc: string, mode: string): string { "scanned:" + ResultKey(upc, mode) }

  function JobId(upc: string, mode: string): string { "keepa:" + ResultKey(upc, mode) }

  /** A cached value read back as a product record. The `true` marker has no fields at all; a
      product document lacks the record's `rank`, `hazmat`, weights and histories, which then
      behave as their falsy values (an absent rank compares false, like rank 0). */
  function CachedAsProduct(v: CacheValue): (p: Product)
    ensures v.Marker? ==> p.upc == ""
  {
    match v
    case Marker => Product("", "", "", "", None, None, None, 0, false, "", None, None, None, [], [], 0, 0, "", None)
    case Stored(d) =>
      Product(d.upc, d.asin, d.title, d.brand, d.usPrice, d.buyBoxPrice, None, 0, false, d.variationHash,
              None, None, None, [], [], 0, 0, d.category, None)
  }

  /** The US record: the cached `{upc}:US` value when present, else the catalog's answer. */
  function UsRecord(upc: string, cache: map<string, CacheEntry>, catalog: map<(string, string), Product>): Option<Product> {
    if ResultKey(upc, "US") in cache then Some(CachedAsProduct(cache[ResultKey(upc, "US")].value))
    else if (upc, "US") in catalog then Some(catalog[(upc, "US")])
    else None
  }

  function RiskFlagsOf(us: Product, eu: Product): Scoring.RiskFlags {
    Scoring.RiskFlags(us.upc == eu.upc, us.title == eu.title, us.variationHash != eu.variationHash, us.hazmat || eu.hazmat, false)
  }

  /** `(productEU.buyBoxPrice - productUS.usPrice - fees - shipping) * riskMultiplier`; a null US
      price counts as 0. */
  function Opportunity(us: Product, eu: Product): real {
    var bb := eu.buyBoxPrice.GetOr(0.0);
    Scoring.OpportunityScore(bb, us.usPrice.GetOr(0.0), Scoring.CalculateFees(bb),
                             Scoring.EstimateShipping(us.weight, us.packageWeight),
                             Scoring.RiskMultiplier(RiskFlagsOf(us, eu)))
  }

  function DataOf(job: ScanJob, us: Product, eu: Product): ProductData {
    ProductData(job.upc, eu.asin, Mode(job), job.category, eu.title, eu.brand, us.usPrice, eu.buyBoxPrice,
                eu.buyBoxPrice, eu.rank, eu.variationHash, "shown", Opportunity(us, eu))
  }

  function CrashOf(eu: Product, month: int): Signals.CrashPrediction {
    Signals.PredictPriceCrash(eu.priceHistory, eu.rankHistory, eu.buyBoxSellerId, eu.category, month)
  }

  function AnalysisOf(job: ScanJob, us: Product, eu: Product, month: int): Analysis {
    var score := Opportunity(us, eu);
    var crash := CrashOf(eu, month);
    Analysis(job.upc, eu.asin, job.category, Mode(job), score, crash.score, crash.level,
             AlertList(score, crash.score, eu.amazonBuyBoxPercent))
  }

  /** What the worker does with a job, given the cache and the catalog before it runs
      (pages/api/lib/keepaQueue.js:31-137). */
  function Evaluate(job: ScanJob, cache: map<string, CacheEntry>, catalog: map<(string, string), Product>, month: int): JobOutcome {
    var key := ResultKey(job.upc, Mode(job));
    if key in cache then CachedResult(cache[key].value)
    else
      var us := UsRecord(job.upc, cache, catalog);
      if us.None? || FilterProduct(us.value).Reject? then Dropped
      else if (job.upc, Mode(job)) !in catalog || FilterProduct(catalog[(job.upc, Mode(job))]).Reject? then Dropped
      else
        var eu := catalog[(job.upc, Mode(job))];
        if us.value.hazmat || eu.hazmat then Dropped
        else if us.value.rank > 20000 || eu.rank > 20000 then Dropped
        else Scored(DataOf(job, us.value, eu), AnalysisOf(job, us.value, eu, month))
  }

  class KeepaQueue {
    var cache: map<string, CacheEntry>
    var products: map<(string, string), ProductData>      // keyed by (upc, market)
    var opportunities: map<(string, string), Analysis>    // keyed by (upc, asin)
    var alerts: seq<AlertDoc>
    var queue: seq<QueuedJob>
    var delays: seq<int>                                  // milliseconds slept, in order

    /** Every stored document sits under the key its upsert filter names, every product document
        is "shown", every alert document holds at least one alert, and every queued job has its
        `scanned:` marker and a job id no other queued job has. */
    predicate Valid()
      reads this
    {
      && (forall k :: k in products ==> products[k].upc == k.0 && products[k].market == k.1 && products[k].status == "shown")
      && (forall k :: k in opportunities ==> opportunities[k].upc == k.0 && opportunities[k].asin == k.1)
      && (forall a :: a in alerts ==> |a.alerts| > 0)
      && (forall i :: 0 <= i < |queue| ==>
            && queue[i].data.mode.Some?
            && ScannedKey(queue[i].data.upc, queue[i].data.mode.value) in cache
            && queue[i].jobId == JobId(queue[i].data.upc, queue[i].data.mode.value)
            && queue[i].attempts == JobAttempts)
      && (forall i, j :: 0 <= i < j < |queue| ==> queue[i].jobId != queue[j].jobId)
    }

    constructor ()
      ensures Valid()
      ensures cache == map[] && products == map[] && opportunities == map[]
      ensures alerts == [] && queue == [] && delays == []
    {
      cache := map[];
      products := map[];
      opportunities := map[];
      alerts := [];
      queue := [];
      delays := [];
    }

    /** The worker's job handler (pages/api/lib/keepaQueue.js:30-138). */
    method ProcessJob(job: ScanJob, catalog: map<(string, string), Product>, month: int) returns (out: JobOutcome)
      requires Valid()
      modifies this
      ensures Valid()
      ensures out == Evaluate(job, old(cache), catalog, month)
      ensures !out.Scored? ==>
        cache == old(cache) && products == old(products) && opportunities == old(opportunities)
        && alerts == old(alerts) && delays == old(delays)
      ensures out.Scored? ==>
        && cache == old(cache)[ResultKey(job.upc, Mode(job)) := CacheEntry(Stored(out.data), CacheTtl)]
        && products == old(products)[(job.upc, Mode(job)) := out.data]
        && opportunities == old(opportunities)[(job.upc, out.data.asin) := out.analysis]
        && alerts == old(alerts) + (if |out.analysis.alerts| > 0 then [AlertDoc(job.upc, out.data.asin, out.analysis.alerts)] else [])
        && delays == old(delays) + [ThrottleMs]
      ensures queue == old(queue)
    {
      var mode := job.mode.GetOr("DE");
      var upc := job.upc;

      var redisKey := ResultKey(upc, mode);
      if redisKey in cache {
        return CachedResult(cache[redisKey].value);
      }

      var productUS: Option<Product> := None;
      if ResultKey(upc, "US") in cache {
        productUS := Some(CachedAsProduct(cache[ResultKey(upc, "US")].value));
      }
      if productUS.None? && (upc, "US") in catalog {
        productUS := Some(catalog[(upc, "US")]);
      }
      assert productUS == UsRecord(upc, cache, catalog);
      if productUS.None? || FilterProduct(productUS.value).Reject? {
        return Dropped;
      }

      // The second cache lookup in the source reads `redisKey` again, which is known to be absent.
      var productEU: Option<Product> := None;
      if (upc, mode) in catalog {
        productEU := Some(catalog[(upc, mode)]);
      }
      if productEU.None? || FilterProduct(productEU.value).Reject? {
        return Dropped;
      }

      var us := productUS.value;
      var eu := productEU.value;
      if us.hazmat || eu.hazmat {
        return Dropped;
      }
      if us.rank > 20000 || eu.rank > 20000 {
        return Dropped;
      }

      EvaluateScores(job, cache, catalog, month, us, eu);
      var opportunityScore := ScoreOpportunity(us, eu);

      var productData := ProductData(upc, eu.asin, mode, job.category, eu.title, eu.brand, us.usPrice,
                                     eu.buyBoxPrice, eu.buyBoxPrice, eu.rank, eu.variationHash, "shown", opportunityScore);
      var priceCrash := Signals.PredictPriceCrash(eu.priceHistory, eu.rankHistory, eu.buyBoxSellerId, eu.category, month);
      var alertList := BuildAlerts(opportunityScore, priceCrash.score, eu.amazonBuyBoxPercent);
      var opportunityAnalysis := Analysis(upc, eu.asin, job.category, mode, opportunityScore,
                                          priceCrash.score, priceCrash.level, alertList);
      assert productData == DataOf(job, us, eu);
      assert opportunityAnalysis == AnalysisOf(job, us, eu, month);
      Record(productData, opportunityAnalysis);
      out := Scored(productData, opportunityAnalysis);
    }

    /** The writes of a scored job, in the source's order: the `products` upsert keyed by
        (upc, market), the cached product document, the `opportunities` upsert keyed by
        (upc, asin), the alert document when the list is nonempty, and the throttle wait
        (pages/api/lib/keepaQueue.js:86-93, 118-135). */
    method Record(productData: ProductData, analysis: Analysis)
      requires Valid()
      requires productData.status == "shown"
      requires analysis.upc == productData.upc && analysis.asin == productData.asin
      modifies this
      ensures Valid()
      ensures cache == old(cache)[ResultKey(productData.upc, productData.market) := CacheEntry(Stored(productData), CacheTtl)]
      ensures products == old(products)[(productData.upc, productData.market) := productData]
      ensures opportunities == old(opportunities)[(analysis.upc, analysis.asin) := analysis]
      ensures alerts == old(alerts) + (if |analysis.alerts| > 0 then [AlertDoc(analysis.upc, analysis.asin, analysis.alerts)] else [])
      ensures delays == old(delays) + [ThrottleMs]
      ensures queue == old(queue)
    {
      products := products[(productData.upc, productData.market) := productData];
      cache := cache[ResultKey(productData.upc, productData.market) := CacheEntry(Stored(productData), CacheTtl)];
      opportunities := opportunities[(analysis.upc, analysis.asin) := analysis];
      if |analysis.alerts| > 0 {
        alerts := alerts + [AlertDoc(analysis.upc, analysis.asin, analysis.alerts)];
      }
      delays := delays + [ThrottleMs];
    }

    /** The producer (pages/api/lib/keepaQueue.js:143-166): enqueue unless already marked scanned. */
    method AddToQueue(upc: string, category: string, mode: Option<string>) returns (added: bool)
      requires Valid()
      modifies this
      ensures Valid()
      ensures var m := mode.GetOr("DE");
        added <==> ScannedKey(upc, m) !in old(cache)
      ensures var m := mode.GetOr("DE");
        !added ==> queue == old(queue) && cache == old(cache)
      ensures var m := mode.GetOr("DE");
        added ==> queue == old(queue) + [QueuedJob("scan", ScanJob(upc, category, Some(m)), JobId(upc, m), JobAttempts)]
                  && cache == old(cache)[ScannedKey(upc, m) := CacheEntry(Marker, CacheTtl)]
      ensures products == old(products) && opportunities == old(opportunities)
      ensures alerts == old(alerts) && delays == old(delays)
    {
      var m := mode.GetOr("DE");
      var redisKey := ScannedKey(upc, m);
      if redisKey in cache {
        return false;
      }
      var job := QueuedJob("scan", ScanJob(upc, category, Some(m)), JobId(upc, m), JobAttempts);
      forall i | 0 <= i < |queue|
        ensures queue[i].jobId != job.jobId
      {
        var d := queue[i].data;
        assert ScannedKey(d.upc, d.mode.value) != redisKey;
        PrefixKeepsDistinct("keepa:", ResultKey(d.upc, d.mode.value), ResultKey(upc, m));
      }
      queue := queue + [job];
      cache := cache[redisKey := CacheEntry(Marker, CacheTtl)];
      return true;
    }
  }

  /** The fee, shipping and risk arithmetic of the handler (pages/api/lib/keepaQueue.js:53-64). */
  method ScoreOpportunity(us: Product, eu: Product) returns (opportunityScore: real)
    ensures opportunityScore == Opportunity(us, eu)
  {
    var fees := Scoring.CalculateFees(eu.buyBoxPrice.GetOr(0.0));
    var shipping := Scoring.EstimateShipping(us.weight, us.packageWeight);
    var riskMultiplier := Scoring.CalculateRiskMultiplier(
      Scoring.RiskFlags(us.upc == eu.upc, us.title == eu.title, us.variationHash != eu.variationHash, us.hazmat || eu.hazmat, false));
    opportunityScore := (eu.buyBoxPrice.GetOr(0.0) - us.usPrice.GetOr(0.0) - fees - shipping) * riskMultiplier;
  }

  /** The scored branch of `Evaluate`. */
  lemma EvaluateScores(job: ScanJob, cache: map<string, CacheEntry>, catalog: map<(string, string), Product>, month: int, us: Product, eu: Product)
    requires ResultKey(job.upc, Mode(job)) !in cache
    requires UsRecord(job.upc, cache, catalog) == Some(us) && FilterProduct(us).Accept?
    requires (job.upc, Mode(job)) in catalog && catalog[(job.upc, Mode(job))] == eu && FilterProduct(eu).Accept?
    requires !us.hazmat && !eu.hazmat && us.rank <= 20000 && eu.rank <= 20000
    ensures Evaluate(job, cache, catalog, month) == Scored(DataOf(job, us, eu), AnalysisOf(job, us, eu, month))
  {
  }

  /** The hazmat and rank checks after `filterProduct` never fire: a job is scored exactly when
      its result is not cached and both records exist and pass `filterProduct`. */
  lemma ScoredExactlyWhenBothPass(job: ScanJob, cache: map<string, CacheEntry>, catalog: map<(string, string), Product>, month: int)
    ensures Evaluate(job, cache, catalog, month).Scored? <==>
      && ResultKey(job.upc, Mode(job)) !in cache
      && UsRecord(job.upc, cache, catalog).Some? && FilterProduct(UsRecord(job.upc, cache, catalog).value).Accept?
      && (job.upc, Mode(job)) in catalog && FilterProduct(catalog[(job.upc, Mode(job))]).Accept?
  {
  }

  /** Because hazmat records were already dropped, the hazmat factor never enters the score, the
      multiplier lies in (0,1], and the score is positive exactly when the target buy-box price
      exceeds the US price plus fees plus shipping. */
  lemma ScoreOfAcceptedPair(job: ScanJob, cache: map<string, CacheEntry>, catalog: map<(string, string), Product>, month: int, us: Product, eu: Product)
    requires UsRecord(job.upc, cache, catalog) == Some(us)
    requires (job.upc, Mode(job)) in catalog && catalog[(job.upc, Mode(job))] == eu
    requires Evaluate(job, cache, catalog, month).Scored?
    ensures !RiskFlagsOf(us, eu).isHazmat
    ensures 0.0 < Scoring.RiskMultiplier(RiskFlagsOf(us, eu)) <= 1.0
    ensures var bb := eu.buyBoxPrice.value;
            Evaluate(job, cache, catalog, month).data.opportunityScore > 0.0
            <==> bb > us.usPrice.GetOr(0.0) + Scoring.CalculateFees(bb) + Scoring.EstimateShipping(us.weight, us.packageWeight)
  {
    Scoring.RiskMultiplierRange(RiskFlagsOf(us, eu));
  }

  /** The alerts of a scored job follow the opportunity score, the crash score and the target
      record's Amazon share; for a record built by the normaliser, which never sets that share,
      the Amazon alert cannot fire. */
  lemma AlertsOfScoredJob(job: ScanJob, cache: map<string, CacheEntry>, catalog: map<(string, string), Product>, month: int, raw: RawProduct)
    requires (job.upc, Mode(job)) in catalog && catalog[(job.upc, Mode(job))] == Normalize(raw)
    requires Evaluate(job, cache, catalog, month).Scored?
    ensures var out := Evaluate(job, cache, catalog, month);
            out.analysis.alerts == AlertList(out.data.opportunityScore, out.analysis.priceCrashScore, None)
            && AmazonDominated !in out.analysis.alerts
  {
  }

  /** A UPC whose US key holds the `true` marker (as the category intake writes it) is dropped
      unless its result is already cached. */
  lemma MarkedUpcIsDropped(job: ScanJob, cache: map<string, CacheEntry>, catalog: map<(string, string), Product>, month: int)
    requires ResultKey(job.upc, Mode(job)) !in cache
    requires ResultKey(job.upc, "US") in cache && cache[ResultKey(job.upc, "US")].value == Marker
    ensures Evaluate(job, cache, catalog, month) == Dropped
  {
  }

  /** Running a job again after it was scored answers from the cache and so writes nothing. */
  lemma RerunAnswersFromCache(job: ScanJob, cache: map<string, CacheEntry>, catalog: map<(string, string), Product>, month: int)
    requires Evaluate(job, cache, catalog, month).Scored?
    ensures var d := Evaluate(job, cache, catalog, month).data;
            var cache' := cache[ResultKey(job.upc, Mode(job)) := CacheEntry(Stored(d), CacheTtl)];
            Evaluate(job, cache', catalog, month) == CachedResult(Stored(d))
  {
  }

  /** Different suffixes give different keys under a common prefix. */
  lemma PrefixKeepsDistinct(prefix: string, a: string, b: string)
    requires a != b
    ensures prefix + a != prefix + b
  {
    assert a == (prefix + a)[|prefix|..];
    assert b == (prefix + b)[|prefix|..];
  }
}
