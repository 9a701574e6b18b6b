/**
 * The category-sweep filter written out twice, with different constants, in
 * pages/api/scanCategory.js:35-45 and pages/api/getCategoryProducts.js:51-61:
 * rank ceiling per category, hazmat, exact-match brand blacklist, then a nonempty
 * whitelist, a weight limit applied only to a truthy weight, exact-match oversize
 * labels, and a buy-box price that must be present and nonzero.
 */
module CategorySweep {
  import opened Wrappers
  import opened FilterChain

  /** A product of a Keepa category response, as these two handlers read it.
      Absent strings are "", absent numbers None. */
  datatype SweepItem = SweepItem(
    asin: string, upc: string, title: string, brand: string,
    bsr: Option<int>, hazmat: bool, weight: Option<real>, size: string,
    buyBoxPrice: Option<real>, price: Option<real>)

  /** The constants of one handler. */
  datatype SweepConfig = SweepConfig(
    maxRank: map<string, int>, fallbackRank: int,
    blacklist: seq<string>, whitelist: seq<string>,
    maxWeight: real, oversizeLabels: seq<string>)

  /** pages/api/scanCategory.js:6-17 */
  const ScanCategoryConfig := SweepConfig(
    map["toys" := 5000, "electronics" := 20000, "home" := 15000, "books" := 50000], 100000,
    ["Nike", "Apple", "Disney"], ["Samsung", "Sony", "LEGO"],
    50.0, ["Large", "Oversize"])

  /** pages/api/getCategoryProducts.js:6-26 and 48-49; the blacklist in force is the
      one declared inside the handler (line 49), which hides the module-level one. */
  const CategoryProductsConfig := SweepConfig(
    map["toys" := 60000, "electronics" := 80000, "home" := 150000, "beauty" := 40000,
        "sports" := 120000, "baby" := 50000, "books" := 500000], 100000,
    ["Nike", "Apple", "Disney"], ["Samsung", "Sony", "LEGO"],
    20.0, ["oversize", "large"])

  /** `categoryMaxRank[category] || 100000` */
  function RankCeiling(cfg: SweepConfig, category: string): (c: int)
    ensures category in cfg.maxRank && cfg.maxRank[category] != 0 ==> c == cfg.maxRank[category]
    ensures !(category in cfg.maxRank && cfg.maxRank[category] != 0) ==> c == cfg.fallbackRank
  {
    if category in cfg.maxRank && cfg.maxRank[category] != 0 then cfg.maxRank[category] else cfg.fallbackRank
  }

  /** A number JavaScript treats as false: absent or zero. */
  predicate Falsy(x: Option<real>) {
    x.None? || x.value == 0.0
  }

  const SweepOrder: seq<Reason> := [RankAboveCeiling, Hazmat, Blacklisted, NotWhitelisted, TooHeavy, Oversize, NoBuyBoxPrice]

  predicate SweepFails(cfg: SweepConfig, category: string, p: SweepItem, r: Reason) {
    match r
    case RankAboveCeiling => p.bsr.Some? && p.bsr.value > RankCeiling(cfg, category)
    case Hazmat => p.hazmat
    case Blacklisted => p.brand in cfg.blacklist
    case NotWhitelisted => |cfg.whitelist| > 0 && p.brand !in cfg.whitelist
    case TooHeavy => !Falsy(p.weight) && p.weight.value > cfg.maxWeight
    case Oversize => p.size in cfg.oversizeLabels
    case NoBuyBoxPrice => Falsy(p.buyBoxPrice)
    case _ => false
  }

  /** The `.filter` callback: the first failing check, in source order, rejects. */
  function Sweep(cfg: SweepConfig, category: string, p: SweepItem): (d: Decision)
    ensures d == FirstFailure(SweepOrder, r => SweepFails(cfg, category, p, r))
    ensures d.Accept? <==> (
      && !(p.bsr.Some? && p.bsr.value > RankCeiling(cfg, category))
      && !p.hazmat
      && p.brand !in cfg.blacklist
      && (|cfg.whitelist| == 0 || p.brand in cfg.whitelist)
      && (Falsy(p.weight) || p.weight.value <= cfg.maxWeight)
      && p.size !in cfg.oversizeLabels
      && !Falsy(p.buyBoxPrice))
  {
    if p.bsr.Some? && p.bsr.value > RankCeiling(cfg, category) then Reject(RankAboveCeiling)
    else if p.hazmat then Reject(Hazmat)
    else if p.brand in cfg.blacklist then Reject(Blacklisted)
    else if |cfg.whitelist| > 0 && p.brand !in cfg.whitelist then Reject(NotWhitelisted)
    else if !Falsy(p.weight) && p.weight.value > cfg.maxWeight then Reject(TooHeavy)
    else if p.size in cfg.oversizeLabels then Reject(Oversize)
    else if Falsy(p.buyBoxPrice) then Reject(NoBuyBoxPrice)
    else Accept
  }

  predicate Kept(cfg: SweepConfig, category: string, p: SweepItem) {
    Sweep(cfg, category, p).Accept?
  }

  /** The rank ceiling is inclusive, and a product without a rank is never rejected for it. */
  lemma SweepRankBoundary(cfg: SweepConfig, category: string, p: SweepItem)
    ensures Sweep(cfg, category, p.(bsr := Some(RankCeiling(cfg, category)))) != Reject(RankAboveCeiling)
    ensures Sweep(cfg, category, p.(bsr := None)) != Reject(RankAboveCeiling)
    ensures Sweep(cfg, category, p.(bsr := Some(RankCeiling(cfg, category) + 1))) == Reject(RankAboveCeiling)
  {
  }

  /** An unlisted category falls back to 100000 in both handlers; listed ones use their own ceiling. */
  lemma SweepCeilings()
    ensures RankCeiling(ScanCategoryConfig, "toys") == 5000
    ensures RankCeiling(CategoryProductsConfig, "toys") == 60000
    ensures RankCeiling(ScanCategoryConfig, "beauty") == 100000
    ensures RankCeiling(CategoryProductsConfig, "beauty") == 40000
    ensures RankCeiling(CategoryProductsConfig, "garden") == 100000
  {
    assert "beauty" !in ScanCategoryConfig.maxRank.Keys;
    assert "garden" !in CategoryProductsConfig.maxRank.Keys;
  }

  /** With these constants the whitelist is nonempty and disjoint from the blacklist, so a kept
      product's brand is exactly one of the three whitelisted spellings, and the blacklist never
      decides whether a product is kept. */
  lemma {:induction false} KeptBrands(cfg: SweepConfig, category: string, p: SweepItem)
    requires cfg == ScanCategoryConfig || cfg == CategoryProductsConfig
    ensures Kept(cfg, category, p) ==> p.brand == "Samsung" || p.brand == "Sony" || p.brand == "LEGO"
    ensures Kept(cfg, category, p) <==> Kept(cfg.(blacklist := []), category, p)
  {
    assert cfg.whitelist == ["Samsung", "Sony", "LEGO"];
    if p.brand in cfg.blacklist {
      assert p.brand == "Nike" || p.brand == "Apple" || p.brand == "Disney";
      assert p.brand !in cfg.whitelist;
    }
  }

  /** Brand and size labels are compared exactly: "LEGO" may pass where "Lego" never does, and each
      handler turns away only its own spelling of "large". */
  lemma SweepIsCaseSensitive(category: string, p: SweepItem)
    ensures Sweep(ScanCategoryConfig, category, p.(brand := "Lego")).Reject?
    ensures Sweep(CategoryProductsConfig, category, p.(brand := "Lego")).Reject?
    ensures Sweep(ScanCategoryConfig, category, p.(size := "Large")).Reject?
    ensures Sweep(CategoryProductsConfig, category, p.(size := "large")).Reject?
    ensures "large" !in ScanCategoryConfig.oversizeLabels && "Large" !in CategoryProductsConfig.oversizeLabels
  {
    assert "Lego" != "LEGO" && "Lego" != "Sony" && "Lego" != "Samsung";
    assert "Lego" !in ScanCategoryConfig.whitelist && "Lego" !in CategoryProductsConfig.whitelist;
    assert "Large" in ScanCategoryConfig.oversizeLabels && "large" in CategoryProductsConfig.oversizeLabels;
    assert "large" != "Large" && "large" != "Oversize" && "Large" != "large" && "Large" != "oversize";
  }

  /** "Sony" is on the module-level blacklist of pages/api/getCategoryProducts.js, but the inner
      list hides it, so a whitelisted Sony product that passes the other checks is kept. */
  lemma ShadowedBlacklistKeepsSony(category: string, p: SweepItem)
    requires p.brand == "Sony" && !p.hazmat && p.bsr.None? && p.weight.None? && p.size == ""
    requires p.buyBoxPrice.Some? && p.buyBoxPrice.value != 0.0
    ensures Kept(CategoryProductsConfig, category, p)
  {
  }

  /** A weight of zero or none is never too heavy; a truthy weight is compared with the limit. */
  lemma SweepWeightOnlyWhenTruthy(cfg: SweepConfig, category: string, p: SweepItem, w: real)
    requires w > cfg.maxWeight
    ensures Sweep(cfg, category, p.(weight := Some(0.0))) != Reject(TooHeavy)
    ensures Sweep(cfg, category, p.(weight := None)) != Reject(TooHeavy)
    ensures w != 0.0 ==> !Kept(cfg, category, p.(weight := Some(w)))
  {
  }
}
