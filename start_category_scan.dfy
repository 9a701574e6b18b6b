/**
 * The handler of pages/api/startCategoryScan.js: the category's products, as returned by
 * `callKeepaCategoryAPI`, are walked in batches of 100; each product not already cached or
 * stored that passes the brand, weight/size, hazmat, rank and Amazon buy-box checks is
 * upserted by upc, queued and marked in the cache for 24 hours, and the handler answers with
 * the number queued. One throttle wait follows every batch.
 *
 * The queue call goes to the `addToQueue(upc, mode, category)` of lib/keepaQueue.js with the
 * two arguments `(p.upc, category)`, so each queued job carries the upc, the category in its
 * `mode` field and no `category` at all; the model records the job exactly so.
 */
module CategoryIntake {
  import opened Wrappers
  import opened FilterChain
  import Text
  import KeepaFilters
  import Seqs

  type CategoryProduct = KeepaFilters.CategoryProduct

  const RankLimits: map<string, int> := map["electronics" := 5000, "toys" := 20000, "home" := 10000, "books" := 30000]
  const DefaultRankLimit := 20000
  const DefaultWhitelist: seq<string> := ["Nike", "Adidas", "Apple", "Sony", "LEGO", "Samsung"]
  const DefaultBlacklist: seq<string> := ["FakeBrand", "NoName"]
  const DefaultMaxWeight := 10000.0
  const DefaultMaxSize := 100.0
  const MaxBatch := 100
  const ThrottleMs := 1200
  const CacheTtl := 24 * 3600

  /** The request: its method and the body fields, None where the body leaves them out. */
  datatype ScanRequest = ScanRequest(
    httpMethod: string, category: string,
    brandWhitelist: Option<seq<string>>, brandBlacklist: Option<seq<string>>,
    maxWeight: Option<real>, maxSize: Option<real>, allowAmazonBuyBox: bool)

  datatype IntakeOptions = IntakeOptions(
    whitelist: seq<string>, blacklist: seq<string>, maxWeight: real, maxSize: real, allowAmazonBuyBox: bool)

  /** The destructuring defaults of lines 18-25. */
  function OptionsOf(req: ScanRequest): (o: IntakeOptions)
    ensures req.brandWhitelist.None? ==> o.whitelist == DefaultWhitelist
    ensures req.brandWhitelist.Some? ==> o.whitelist == req.brandWhitelist.value
    ensures o.blacklist == req.brandBlacklist.GetOr(DefaultBlacklist)
    ensures o.maxWeight == req.maxWeight.GetOr(DefaultMaxWeight) && o.maxSize == req.maxSize.GetOr(DefaultMaxSize)
    ensures o.allowAmazonBuyBox == req.allowAmazonBuyBox
  {
    IntakeOptions(
      req.brandWhitelist.GetOr(DefaultWhitelist), req.brandBlacklist.GetOr(DefaultBlacklist),
      req.maxWeight.GetOr(DefaultMaxWeight), req.maxSize.GetOr(DefaultMaxSize), req.allowAmazonBuyBox)
  }

  /** The `$set` document of the products upsert. */
  datatype IntakeRecord = IntakeRecord(
    upc: string, asin: string, title: string, brand: string,
    buyBoxPrice: real, rank: int, hazmat: bool, scannedAt: int, category: string)

  /** The data `{ upc, mode, category }` of one job added by lib/keepaQueue.js:24-30;
      `category` is None when the caller leaves that argument out. */
  datatype QueueJob = QueueJob(upc: string, mode: string, category: Option<string>)

  /** The stores the handler reads and writes, and the number queued so far. */
  datatype IntakeState = IntakeState(
    cache: map<string, int>,                // key -> time to live in seconds
    products: map<string, IntakeRecord>,    // keyed by upc
    jobs: seq<QueueJob>,
    queued: nat)

  function CacheKey(upc: string): string {
    upc + ":US"
  }

  /** `RANK_LIMITS[category] || 20000` */
  function RankLimit(category: string): (n: int)
    ensures category in RankLimits ==> n == RankLimits[category]
    ensures category !in RankLimits ==> n == DefaultRankLimit
  {
    if category in RankLimits && RankLimits[category] != 0 then RankLimits[category] else DefaultRankLimit
  }

  /** `(p.buyBoxSellerId || "").toLowerCase() === "amazon"` */
  predicate IsAmazonOwned(q: CategoryProduct) {
    Text.ToLower(q.buyBoxSellerId.GetOr("")) == "amazon"
  }

  const IntakeOrder: seq<Reason> := [AlreadySeen, Blacklisted, NotWhitelisted, TooHeavy, Oversize, Hazmat, RankAboveCeiling, AmazonBuyBox]

  predicate IntakeFails(st: IntakeState, o: IntakeOptions, category: string, q: CategoryProduct, r: Reason) {
    match r
    case AlreadySeen => CacheKey(q.upc) in st.cache || q.upc in st.products
    case Blacklisted => |o.blacklist| > 0 && Text.ToLower(q.brand) in o.blacklist
    case NotWhitelisted => |o.whitelist| > 0 && Text.ToLower(q.brand) !in o.whitelist
    case TooHeavy => q.weight.GetOr(0.0) > o.maxWeight
    case Oversize => q.size.GetOr(0.0) > o.maxSize
    case Hazmat => q.hazmat
    case RankAboveCeiling => q.rank > RankLimit(category)
    case AmazonBuyBox => !o.allowAmazonBuyBox && IsAmazonOwned(q)
    case _ => false
  }

  /** The `continue` checks of lines 46-72, in order. */
  function Check(st: IntakeState, o: IntakeOptions, category: string, q: CategoryProduct): (d: Decision)
    ensures d.Accept? <==> (
      && CacheKey(q.upc) !in st.cache && q.upc !in st.products
      && (|o.blacklist| == 0 || Text.ToLower(q.brand) !in o.blacklist)
      && (|o.whitelist| == 0 || Text.ToLower(q.brand) in o.whitelist)
      && q.weight.GetOr(0.0) <= o.maxWeight && q.size.GetOr(0.0) <= o.maxSize
      && !q.hazmat && q.rank <= RankLimit(category)
      && (o.allowAmazonBuyBox || !IsAmazonOwned(q)))
  {
    var brand := Text.ToLower(q.brand);
    if CacheKey(q.upc) in st.cache || q.upc in st.products then Reject(AlreadySeen)
    else if |o.blacklist| > 0 && brand in o.blacklist then Reject(Blacklisted)
    else if |o.whitelist| > 0 && brand !in o.whitelist then Reject(NotWhitelisted)
    else if q.weight.GetOr(0.0) > o.maxWeight then Reject(TooHeavy)
    else if q.size.GetOr(0.0) > o.maxSize then Reject(Oversize)
    else if q.hazmat then Reject(Hazmat)
    else if q.rank > RankLimit(category) then Reject(RankAboveCeiling)
    else if !o.allowAmazonBuyBox && IsAmazonOwned(q) then Reject(AmazonBuyBox)
    else Accept
  }

  /** The checks run in the order of lines 46-72 and the first failing one names the reason. */
  lemma CheckFollowsIntakeOrder(st: IntakeState, o: IntakeOptions, category: string, q: CategoryProduct)
    ensures Check(st, o, category, q) == FirstFailure(IntakeOrder, r => IntakeFails(st, o, category, q, r))
  {
  }

  function RecordOf(q: CategoryProduct, category: string, now: int): IntakeRecord {
    IntakeRecord(q.upc, q.asin, q.title, q.brand, q.buyBoxPrice, q.rank, q.hazmat, now, category)
  }

  /** One product of the inner loop: skipped, or upserted, queued, cache-marked and counted. */
  function Step(st: IntakeState, o: IntakeOptions, category: string, now: int, q: CategoryProduct): IntakeState {
    if Check(st, o, category, q).Accept? then
      IntakeState(
        st.cache[CacheKey(q.upc) := CacheTtl],
        st.products[q.upc := RecordOf(q, category, now)],
        st.jobs + [QueueJob(q.upc, category, None)],
        st.queued + 1)
    else st
  }

  /** The products in order. */
  function Run(st: IntakeState, o: IntakeOptions, category: string, now: int, qs: seq<CategoryProduct>): IntakeState {
    if qs == [] then st
    else Step(Run(st, o, category, now, qs[..|qs| - 1]), o, category, now, qs[|qs| - 1])
  }

  /** What `callKeepaCategoryAPI(category, { domain: "com" })` returns for a response. */
  function ProductsUS(category: string, raw: Option<seq<KeepaFilters.CategoryApiItem>>): seq<CategoryProduct> {
    KeepaFilters.CategoryApiResult(category, KeepaFilters.WithDefaults(None, None, None, None), raw)
  }

  /** The products the loop walks: none for a refused request. */
  function Admitted(req: ScanRequest, raw: Option<seq<KeepaFilters.CategoryApiItem>>): seq<CategoryProduct> {
    if req.httpMethod != "POST" || req.category == "" then [] else ProductsUS(req.category, raw)
  }

  function Outcome(st: IntakeState, req: ScanRequest, raw: Option<seq<KeepaFilters.CategoryApiItem>>, now: int): IntakeState {
    Run(st.(queued := 0), OptionsOf(req), req.category, now, Admitted(req, raw))
  }

  datatype IntakeResponse =
    | MethodNotAllowed                                // 405
    | CategoryRequired                                // 400
    | NoProducts                                      // 200, "No products found for this category."
    | Started(category: string, queuedProducts: nat)  // 200, "Category scan started for ..."

  function Respond(st: IntakeState, req: ScanRequest, raw: Option<seq<KeepaFilters.CategoryApiItem>>, now: int): (r: IntakeResponse)
    ensures r == MethodNotAllowed <==> req.httpMethod != "POST"
    ensures r == CategoryRequired <==> req.httpMethod == "POST" && req.category == ""
    ensures r == NoProducts <==> req.httpMethod == "POST" && req.category != "" && ProductsUS(req.category, raw) == []
    ensures r.Started? ==> r.category == req.category && Admitted(req, raw) != []
    ensures r.Started? ==> r.queuedProducts == |Outcome(st, req, raw, now).jobs| - |st.jobs|
  {
    if req.httpMethod != "POST" then MethodNotAllowed
    else if req.category == "" then CategoryRequired
    else if ProductsUS(req.category, raw) == [] then NoProducts
    else
      RunGrows(st.(queued := 0), OptionsOf(req), req.category, now, Admitted(req, raw));
      Started(req.category, Outcome(st, req, raw, now).queued)
  }

  /** `ceil(n / MAX_BATCH)` */
  function NumBatches(n: nat): nat {
    (n + MaxBatch - 1) / MaxBatch
  }

  /** One throttle wait per batch. */
  function Throttles(batches: nat): (w: seq<int>)
    ensures |w| == batches && forall k :: 0 <= k < batches ==> w[k] == ThrottleMs
  {
    seq(batches, _ => ThrottleMs)
  }

  // ---------------------------------------------------------------------------
  // Properties of the walk

  /** The walk only adds: existing cache keys, records and jobs stay. */
  lemma {:induction false} RunGrows(st: IntakeState, o: IntakeOptions, category: string, now: int, qs: seq<CategoryProduct>)
    ensures var r := Run(st, o, category, now, qs);
      && st.cache.Keys <= r.cache.Keys && (forall k :: k in st.cache ==> r.cache[k] == st.cache[k])
      && st.products.Keys <= r.products.Keys && (forall u :: u in st.products ==> r.products[u] == st.products[u])
      && |st.jobs| <= |r.jobs| && r.jobs[..|st.jobs|] == st.jobs
      && r.queued == st.queued + (|r.jobs| - |st.jobs|)
  {
    if qs != [] {
      var prev := Run(st, o, category, now, qs[..|qs| - 1]);
      RunGrows(st, o, category, now, qs[..|qs| - 1]);
      if Check(prev, o, category, qs[|qs| - 1]).Accept? {
        assert (prev.jobs + [QueueJob(qs[|qs| - 1].upc, category, None)])[..|st.jobs|] == prev.jobs[..|st.jobs|];
      }
    }
  }

  /** Walking two lists one after the other is walking their concatenation. */
  lemma {:induction false} RunAppend(st: IntakeState, o: IntakeOptions, category: string, now: int, a: seq<CategoryProduct>, b: seq<CategoryProduct>)
    ensures Run(st, o, category, now, a + b) == Run(Run(st, o, category, now, a), o, category, now, b)
  {
    if b == [] {
      assert a + b == a;
    } else {
      assert (a + b)[..|a + b| - 1] == a + b[..|b| - 1];
      RunAppend(st, o, category, now, a, b[..|b| - 1]);
    }
  }

  /** Every queued product was new to both stores, is queued once with the category as its
      `mode` and no `category`, and is upserted with the category and marked in the cache for
      24 hours; so queuedProducts counts exactly the jobs added. */
  lemma {:induction false} QueuedProductsAreRecorded(st: IntakeState, o: IntakeOptions, category: string, now: int, qs: seq<CategoryProduct>)
    ensures var r := Run(st, o, category, now, qs);
      && r.queued == st.queued + (|r.jobs| - |st.jobs|)
      && (forall k :: |st.jobs| <= k < |r.jobs| ==>
            var upc := r.jobs[k].upc;
            && r.jobs[k].mode == category && r.jobs[k].category.None?
            && CacheKey(upc) !in st.cache && upc !in st.products
            && CacheKey(upc) in r.cache && r.cache[CacheKey(upc)] == CacheTtl
            && upc in r.products && r.products[upc].category == category && r.products[upc].scannedAt == now)
      && (forall k, l :: |st.jobs| <= k < l < |r.jobs| ==> r.jobs[k].upc != r.jobs[l].upc)
  {
    RunGrows(st, o, category, now, qs);
    if qs != [] {
      var q := qs[|qs| - 1];
      var prev := Run(st, o, category, now, qs[..|qs| - 1]);
      QueuedProductsAreRecorded(st, o, category, now, qs[..|qs| - 1]);
      RunGrows(st, o, category, now, qs[..|qs| - 1]);
      if Check(prev, o, category, q).Accept? {
        var r := Run(st, o, category, now, qs);
        assert r.jobs == prev.jobs + [QueueJob(q.upc, category, None)];
        forall k | |st.jobs| <= k < |prev.jobs|
          ensures r.jobs[k].upc != q.upc
          ensures r.products[r.jobs[k].upc] == prev.products[r.jobs[k].upc]
          ensures r.cache[CacheKey(r.jobs[k].upc)] == CacheTtl
        {
          assert r.jobs[k] == prev.jobs[k];
          assert prev.jobs[k].upc in prev.products;
        }
      }
    }
  }

  /** Each check of the defaults' whitelist spells its brand with a capital letter. */
  lemma DefaultWhitelistIsCapitalised()
    ensures forall w :: w in DefaultWhitelist ==> Text.HasUpper(w)
  {
    assert Text.IsUpper("Nike"[0]) && Text.IsUpper("Adidas"[0]) && Text.IsUpper("Apple"[0]);
    assert Text.IsUpper("Sony"[0]) && Text.IsUpper("LEGO"[0]) && Text.IsUpper("Samsung"[0]);
  }

  /** The brand is lower-cased before the whitelist test, and every default entry is capitalised,
      so with the default whitelist no product is ever queued and nothing is written. */
  lemma {:induction false} DefaultWhitelistQueuesNothing(st: IntakeState, o: IntakeOptions, category: string, now: int, qs: seq<CategoryProduct>)
    requires o.whitelist == DefaultWhitelist
    ensures Run(st, o, category, now, qs) == st
  {
    if qs != [] {
      DefaultWhitelistQueuesNothing(st, o, category, now, qs[..|qs| - 1]);
      var q := qs[|qs| - 1];
      DefaultWhitelistIsCapitalised();
      if Text.ToLower(q.brand) in DefaultWhitelist {
        Text.NotALowerCaseImage(q.brand, Text.ToLower(q.brand));
        assert false;
      }
      assert IntakeFails(st, o, category, q, NotWhitelisted);
    }
  }

  /** Products from `callKeepaCategoryAPI` with its default options are never turned away for hazmat
      (only `hazmat === false` products come back) nor for Amazon on the buy box (the mapping has no
      seller field). */
  lemma CategoryApiOutputPassesHazmatAndAmazon(st: IntakeState, o: IntakeOptions, category: string, raw: Option<seq<KeepaFilters.CategoryApiItem>>)
    ensures forall q :: q in ProductsUS(category, raw) ==>
      !IntakeFails(st, o, category, q, Hazmat) && !IntakeFails(st, o, category, q, AmazonBuyBox)
  {
    forall q | q in ProductsUS(category, raw)
      ensures !q.hazmat && !IsAmazonOwned(q)
    {
      var p :| p in raw.value && KeepaFilters.CategoryApiFilter(KeepaFilters.WithDefaults(None, None, None, None), p).Accept?
        && q == KeepaFilters.ToCategoryProduct(category, p);
      assert Text.ToLower("") == "";
    }
  }

  /** The rank limit is inclusive. */
  lemma IntakeRankBoundary(st: IntakeState, o: IntakeOptions, category: string, q: CategoryProduct)
    ensures !IntakeFails(st, o, category, q.(rank := RankLimit(category)), RankAboveCeiling)
    ensures IntakeFails(st, o, category, q.(rank := RankLimit(category) + 1), RankAboveCeiling)
  {
  }

  class CategoryScan {
    var cache: map<string, int>
    var products: map<string, IntakeRecord>
    var jobs: seq<QueueJob>
    var waits: seq<int>

    constructor ()
      ensures cache == map[] && products == map[] && jobs == [] && waits == []
    {
      cache := map[];
      products := map[];
      jobs := [];
      waits := [];
    }

    /** pages/api/startCategoryScan.js:15-111 */
    method Handle(req: ScanRequest, raw: Option<seq<KeepaFilters.CategoryApiItem>>, now: int) returns (r: IntakeResponse)
      modifies this
      ensures var st := IntakeState(old(cache), old(products), old(jobs), 0);
        var out := Outcome(st, req, raw, now);
        && r == Respond(st, req, raw, now)
        && cache == out.cache && products == out.products && jobs == out.jobs
        && waits == old(waits) + Throttles(NumBatches(|Admitted(req, raw)|))
    {
      if req.httpMethod != "POST" {
        return MethodNotAllowed;
      }
      if req.category == "" {
        return CategoryRequired;
      }
      var o := OptionsOf(req);
      var category := req.category;
      var productsUS := ProductsUS(category, raw);
      if |productsUS| == 0 {
        return NoProducts;
      }
      var queuedCount := Walk(o, category, now, productsUS);
      r := Started(category, queuedCount);
    }

    /** pages/api/startCategoryScan.js:39-101: the batch loop, one throttle wait per batch. */
    method Walk(o: IntakeOptions, category: string, now: int, productsUS: seq<CategoryProduct>) returns (queuedCount: nat)
      modifies this
      ensures IntakeState(cache, products, jobs, queuedCount) == Run(IntakeState(old(cache), old(products), old(jobs), 0), o, category, now, productsUS)
      ensures waits == old(waits) + Throttles(NumBatches(|productsUS|))
    {
      ghost var st0 := IntakeState(cache, products, jobs, 0);
      queuedCount := 0;
      var i := 0;
      var b := 0;
      while i < |productsUS|
        invariant i == MaxBatch * b && (b > 0 ==> MaxBatch * (b - 1) < |productsUS|)
        invariant IntakeState(cache, products, jobs, queuedCount) == Run(st0, o, category, now, productsUS[..if i < |productsUS| then i else |productsUS|])
        invariant waits == old(waits) + Throttles(b)
        decreases |productsUS| - i
      {
        var end := if i + MaxBatch < |productsUS| then i + MaxBatch else |productsUS|;
        var batch := productsUS[i..end];
        queuedCount := ProcessBatch(o, category, now, batch, queuedCount);
        RunAppend(st0, o, category, now, productsUS[..i], batch);
        Seqs.PrefixThenSlice(productsUS, i, end);
        waits := waits + [ThrottleMs];
        assert Throttles(b) + [ThrottleMs] == Throttles(b + 1);
        i := i + MaxBatch;
        b := b + 1;
      }
      assert productsUS[..|productsUS|] == productsUS;
      assert b == NumBatches(|productsUS|);
    }

    /** pages/api/startCategoryScan.js:45-97, the products of one batch in order. */
    method ProcessBatch(o: IntakeOptions, category: string, now: int, batch: seq<CategoryProduct>, queuedIn: nat) returns (queuedOut: nat)
      modifies this
      ensures IntakeState(cache, products, jobs, queuedOut) == Run(IntakeState(old(cache), old(products), old(jobs), queuedIn), o, category, now, batch)
      ensures waits == old(waits)
    {
      queuedOut := queuedIn;
      for j := 0 to |batch|
        invariant IntakeState(cache, products, jobs, queuedOut) == Run(IntakeState(old(cache), old(products), old(jobs), queuedIn), o, category, now, batch[..j])
        invariant waits == old(waits)
      {
        assert batch[..j + 1][..j] == batch[..j];
        queuedOut := Admit(o, category, now, batch[j], queuedOut);
      }
      assert batch[..|batch|] == batch;
    }

    /** pages/api/startCategoryScan.js:45-97, one product of the inner loop. */
    method Admit(o: IntakeOptions, category: string, now: int, q: CategoryProduct, queuedIn: nat) returns (queuedOut: nat)
      modifies this
      ensures IntakeState(cache, products, jobs, queuedOut) == Step(IntakeState(old(cache), old(products), old(jobs), queuedIn), o, category, now, q)
      ensures waits == old(waits)
    {
      queuedOut := queuedIn;
      var brand := Text.ToLower(q.brand);
      var redisKey := CacheKey(q.upc);
      if redisKey in cache || q.upc in products {
        return;
      }
      if |o.blacklist| > 0 && brand in o.blacklist {
        return;
      }
      if |o.whitelist| > 0 && brand !in o.whitelist {
        return;
      }
      var weight := q.weight.GetOr(0.0);
      var size := q.size.GetOr(0.0);
      if weight > o.maxWeight || size > o.maxSize {
        return;
      }
      if q.hazmat {
        return;
      }
      if q.rank > RankLimit(category) {
        return;
      }
      var isAmazonOwned := Text.ToLower(q.buyBoxSellerId.GetOr("")) == "amazon";
      if !o.allowAmazonBuyBox && isAmazonOwned {
        return;
      }
      products := products[q.upc := RecordOf(q, category, now)];
      jobs := jobs + [QueueJob(q.upc, category, None)];
      cache := cache[redisKey := CacheTtl];
      queuedOut := queuedIn + 1;
    }
  }
}
