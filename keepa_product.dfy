/**
 * The product record of the scan pipeline and the normaliser that builds it from a
 * product returned by the catalog API (lib/keepaUtils.js, `callKeepaAPI` without
 * the HTTP request), plus `extractKeepaPricing`.
 *
 * Conventions: an absent or null string field is "" (JavaScript treats both as
 * falsy); an absent number is `None`. Prices in the raw record are in cents, weights
 * in grams.
 */
module KeepaProduct {
  import opened Wrappers

  /** One entry of the raw `salesRanks` object: a category id and its rank series. */
  datatype RankSeries = RankSeries(categoryId: string, ranks: seq<int>)

  /** The fields of a raw catalog product that the normaliser reads. */
  datatype RawProduct = RawProduct(
    upc: string,
    asin: string,
    title: string,
    brand: string,
    current0: Option<int>,            // stats.current[0], cents
    statsBuyBoxPrice: Option<int>,    // stats.buyBoxPrice, cents
    buyBoxSellerId: Option<string>,   // stats.buyBoxSellerId
    salesRanks: Option<seq<RankSeries>>,
    hazmat: Option<bool>,
    variationHash: string,
    packageWeight: Option<int>,       // grams
    priceCsv: Option<seq<real>>,      // csv[0]
    rankCsv: Option<seq<int>>,        // csv[3]
    offerCount: Option<int>,          // stats.offerCount
    offerCountFBA: Option<int>,       // stats.offerCountFBA
    rootCategory: string,
    categoryTreeFirst: string)        // categoryTree[0].name

  /** The normalised product record consumed by the filters and the scorers. */
  datatype Product = Product(
    upc: string,
    asin: string,
    title: string,
    brand: string,
    usPrice: Option<real>,
    buyBoxPrice: Option<real>,
    buyBoxSellerId: Option<string>,
    rank: int,
    hazmat: bool,
    variationHash: string,
    weight: Option<real>,             // not set by the normaliser; read by estimateShipping
    packageWeight: Option<real>,      // grams
    weightKg: Option<real>,
    priceHistory: seq<real>,
    rankHistory: seq<int>,
    offerCountFBA: int,
    totalSellers: int,
    category: string,
    amazonBuyBoxPercent: Option<real>) // never set by the normaliser; read by the queue worker

  /** The rank used when the raw record carries no sales rank. */
  const MissingRank := 999999

  /** `salesRanks?.[Object.keys(salesRanks)[0]]?.[0] ?? 999999` */
  function FirstRank(salesRanks: Option<seq<RankSeries>>): (rank: int)
    ensures salesRanks.None? ==> rank == MissingRank
    ensures salesRanks.Some? && |salesRanks.value| > 0 && |salesRanks.value[0].ranks| > 0
            ==> rank == salesRanks.value[0].ranks[0]
  {
    match salesRanks
    case None => MissingRank
    case Some(series) =>
      if |series| == 0 || |series[0].ranks| == 0 then MissingRank else series[0].ranks[0]
  }

  /** `n ? n / d : null` for a numeric field */
  function Scaled(n: Option<int>, d: real): Option<real>
    requires d != 0.0
  {
    if n.Some? && n.value != 0 then Some(n.value as real / d) else None
  }

  /** lib/keepaUtils.js:165-200, the record built from the first product of the response. */
  function Normalize(p: RawProduct): (q: Product)
    ensures q.upc == p.upc && q.asin == p.asin && q.brand == p.brand
    ensures q.hazmat <==> p.hazmat == Some(true)
    ensures q.rank == FirstRank(p.salesRanks)
    ensures q.usPrice.Some? <==> p.current0.Some? && p.current0.value != 0
    ensures q.usPrice.Some? ==> q.usPrice.value * 100.0 == p.current0.value as real
    ensures q.buyBoxPrice.Some? <==> (p.statsBuyBoxPrice.Some? && p.statsBuyBoxPrice.value != 0) || p.current0.Some?
    ensures q.weightKg.Some? <==> p.packageWeight.Some? && p.packageWeight.value != 0
    ensures q.weightKg.Some? ==> q.weightKg.value * 1000.0 == p.packageWeight.value as real
    ensures q.category != ""
    ensures q.totalSellers != 0
    ensures q.weight.None? && q.amazonBuyBoxPercent.None?
  {
    Product(
      upc := p.upc,
      asin := p.asin,
      title := p.title,
      brand := p.brand,
      usPrice := Scaled(p.current0, 100.0),
      buyBoxPrice :=
        if p.statsBuyBoxPrice.Some? && p.statsBuyBoxPrice.value != 0 then Some(p.statsBuyBoxPrice.value as real / 100.0)
        else if p.current0.Some? then Some(p.current0.value as real / 100.0)
        else None,
      buyBoxSellerId := p.buyBoxSellerId,
      rank := FirstRank(p.salesRanks),
      hazmat := p.hazmat == Some(true),
      variationHash := p.variationHash,
      weight := None,
      packageWeight := if p.packageWeight.Some? then Some(p.packageWeight.value as real) else None,
      weightKg := Scaled(p.packageWeight, 1000.0),
      priceHistory := p.priceCsv.GetOr([]),
      rankHistory := p.rankCsv.GetOr([]),
      offerCountFBA := if p.offerCountFBA.Some? && p.offerCountFBA.value != 0 then p.offerCountFBA.value else 0,
      totalSellers := if p.offerCount.Some? && p.offerCount.value != 0 then p.offerCount.value else 1,
      category :=
        if p.rootCategory != "" then p.rootCategory
        else if p.categoryTreeFirst != "" then p.categoryTreeFirst
        else "uncategorized",
      amazonBuyBoxPercent := None)
  }

  /** The category fallback order: root category, then the first tree node, then "uncategorized". */
  lemma NormalizeCategoryFallback(p: RawProduct)
    ensures p.rootCategory != "" ==> Normalize(p).category == p.rootCategory
    ensures p.rootCategory == "" && p.categoryTreeFirst != "" ==> Normalize(p).category == p.categoryTreeFirst
    ensures p.rootCategory == "" && p.categoryTreeFirst == "" ==> Normalize(p).category == "uncategorized"
  {
  }

  /** The buy-box price falls back to the current price only when the buy-box field is absent or zero. */
  lemma NormalizeBuyBoxFallback(p: RawProduct)
    ensures p.statsBuyBoxPrice.Some? && p.statsBuyBoxPrice.value != 0
            ==> Normalize(p).buyBoxPrice == Some(p.statsBuyBoxPrice.value as real / 100.0)
    ensures (p.statsBuyBoxPrice.None? || p.statsBuyBoxPrice.value == 0) && p.current0.Some?
            ==> Normalize(p).buyBoxPrice == Some(p.current0.value as real / 100.0)
    ensures (p.statsBuyBoxPrice.None? || p.statsBuyBoxPrice.value == 0) && p.current0.None?
            ==> Normalize(p).buyBoxPrice.None?
  {
  }

  /** The pricing summary of lib/keepaUtils.js:922-932 (cents and grams in, dollars and kilograms out). */
  datatype Pricing = Pricing(
    buyBoxUS: real, referralFee: real, fbaFee: real, weightKg: real,
    hazmat: bool, brand: string, salesRank: int)

  /** The fields `extractKeepaPricing` reads; `hazmat` is kept raw so `=== true` can be modelled. */
  datatype PricingSource = PricingSource(
    buyBoxPrice: int, referralFee: real, fbaFee: real, packageWeight: int,
    hazmat: Option<bool>, brand: string, salesRank: int)

  function ExtractKeepaPricing(k: PricingSource): (r: Pricing)
    ensures r.buyBoxUS * 100.0 == k.buyBoxPrice as real
    ensures r.weightKg * 1000.0 == k.packageWeight as real
    ensures r.hazmat <==> k.hazmat == Some(true)
    ensures r.referralFee == k.referralFee && r.fbaFee == k.fbaFee
    ensures r.brand == k.brand && r.salesRank == k.salesRank
  {
    Pricing(
      buyBoxUS := k.buyBoxPrice as real / 100.0,
      referralFee := k.referralFee,
      fbaFee := k.fbaFee,
      weightKg := k.packageWeight as real / 1000.0,
      hazmat := k.hazmat == Some(true),
      brand := k.brand,
      salesRank := k.salesRank)
  }
}
