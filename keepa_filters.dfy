/**
 * The filter predicates of lib/keepaUtils.js: `passInitialFilter` (the token-saver
 * check on a raw catalog product), `filterProduct` (on a normalised product),
 * `priorityScore`, and the category-response filter and mapping inside
 * `callKeepaCategoryAPI`.
 */
module KeepaFilters {
  import opened Wrappers
  import opened FilterChain
  import opened KeepaProduct
  import Seqs

  // ---------------------------------------------------------------------------
  // passInitialFilter (first half of the file: FILTERS constants)

  const InitialMaxRank := 20000
  const InitialWhitelist: seq<string> := ["Apple", "Samsung", "Sony"]
  const InitialBlacklist: seq<string> := ["FakeBrand", "UnknownBrand"]

  /** The fields of a raw product that `passInitialFilter` reads. */
  datatype InitialCandidate = InitialCandidate(
    upc: string, hazmat: bool, brand: string, salesRanks: Option<seq<RankSeries>>)

  const InitialOrder: seq<Reason> := [NoIdentifier, Hazmat, Blacklisted, NotWhitelisted, RankAboveCeiling]

  /** Each check of `passInitialFilter` on its own. */
  predicate InitialFails(p: InitialCandidate, r: Reason) {
    match r
    case NoIdentifier => p.upc == ""
    case Hazmat => p.hazmat
    case Blacklisted => p.brand != "" && p.brand in InitialBlacklist
    case NotWhitelisted => |InitialWhitelist| > 0 && p.brand !in InitialWhitelist
    case RankAboveCeiling => FirstRank(p.salesRanks) > InitialMaxRank
    case _ => false
  }

  function PassInitialFilter(p: InitialCandidate): (d: Decision)
    ensures d.Accept? <==>
      p.upc != "" && !p.hazmat && p.brand in InitialWhitelist && FirstRank(p.salesRanks) <= InitialMaxRank
    ensures d == FirstFailure(InitialOrder, r => InitialFails(p, r))
  {
    if p.upc == "" then Reject(NoIdentifier)
    else if p.hazmat then Reject(Hazmat)
    else if p.brand != "" && p.brand in InitialBlacklist then Reject(Blacklisted)
    else if |InitialWhitelist| > 0 && p.brand !in InitialWhitelist then Reject(NotWhitelisted)
    else
      var rank := FirstRank(p.salesRanks);
      if rank <= InitialMaxRank then Accept else Reject(RankAboveCeiling)
  }

  /** A product without sales ranks is ranked 999999 and therefore always rejected. */
  lemma PassInitialFilterMissingRank(p: InitialCandidate)
    requires p.salesRanks.None?
    ensures PassInitialFilter(p).Reject?
  {
  }

  /**
   * The blacklist is consulted only for a truthy brand; an empty brand is turned
   * away by the whitelist instead.
   */
  lemma PassInitialFilterEmptyBrand(p: InitialCandidate)
    requires p.upc != "" && !p.hazmat && p.brand == ""
    ensures PassInitialFilter(p) == Reject(NotWhitelisted)
  {
  }

  // ---------------------------------------------------------------------------
  // filterProduct (second half of the file: exported constants)

  const MaxRank := 20000
  const BrandWhitelist: seq<string> := ["Apple", "Samsung", "Sony", "LEGO", "Hasbro", "Fisher-Price"]
  const BrandBlacklist: seq<string> := ["FakeBrand", "UnknownBrand", "Generic", "Amazon Basics"]

  const FilterProductOrder: seq<Reason> :=
    [NoIdentifier, RankAboveCeiling, Hazmat, NotWhitelisted, Blacklisted, NoBuyBoxPrice]

  /** `!x || x <= 0` on an optional price */
  predicate NoPositivePrice(x: Option<real>) {
    x.None? || x.value <= 0.0
  }

  predicate FilterProductFails(p: Product, r: Reason) {
    match r
    case NoIdentifier => p.upc == ""
    case RankAboveCeiling => p.rank > MaxRank
    case Hazmat => p.hazmat
    case NotWhitelisted => |BrandWhitelist| > 0 && p.brand !in BrandWhitelist
    case Blacklisted => p.brand in BrandBlacklist
    case NoBuyBoxPrice => NoPositivePrice(p.buyBoxPrice)
    case _ => false
  }

  function FilterProduct(p: Product): (d: Decision)
    ensures d == FirstFailure(FilterProductOrder, r => FilterProductFails(p, r))
    ensures d.Accept? <==>
      && p.upc != ""
      && p.rank <= MaxRank
      && !p.hazmat
      && p.brand in BrandWhitelist
      && p.brand !in BrandBlacklist
      && p.buyBoxPrice.Some? && p.buyBoxPrice.value > 0.0
  {
    if p.upc == "" then Reject(NoIdentifier)
    else if p.rank > MaxRank then Reject(RankAboveCeiling)
    else if p.hazmat then Reject(Hazmat)
    else if |BrandWhitelist| > 0 && p.brand !in BrandWhitelist then Reject(NotWhitelisted)
    else if p.brand in BrandBlacklist then Reject(Blacklisted)
    else if NoPositivePrice(p.buyBoxPrice) then Reject(NoBuyBoxPrice)
    else Accept
  }

  /** The rank ceiling is inclusive: 20000 passes, 20001 is rejected for its rank. */
  lemma FilterProductRankBoundary(p: Product)
    requires FilterProduct(p).Accept?
    ensures FilterProduct(p.(rank := MaxRank)).Accept?
    ensures FilterProduct(p.(rank := MaxRank + 1)) == Reject(RankAboveCeiling)
  {
  }

  /** Every blacklisted brand is off the whitelist, so `filterProduct` never rejects for the blacklist. */
  lemma FilterProductBlacklistUnreachable(p: Product)
    ensures FilterProduct(p) != Reject(Blacklisted)
  {
    if p.brand in BrandBlacklist {
      var i :| 0 <= i < |BrandBlacklist| && BrandBlacklist[i] == p.brand;
      assert p.brand[0] in {'F', 'U', 'G', 'A'};
      assert p.brand !in BrandWhitelist;
    }
  }

  /** A normalised product whose raw record had no sales ranks never passes `filterProduct`. */
  lemma NormalizedWithoutRankRejected(raw: RawProduct)
    requires raw.upc != ""
    requires raw.salesRanks.None?
    ensures FilterProduct(Normalize(raw)).Reject?
  {
  }

  // ---------------------------------------------------------------------------
  // priorityScore

  /** The priority of a product: buy-box presence, whitelist membership, then rank. */
  function Priority(p: Product): (s: real)
    ensures s <= 15.0 - p.rank as real / 100000.0
  {
    (if p.buyBoxPrice.Some? && p.buyBoxPrice.value > 0.0 then 10.0 else 0.0)
    + (if p.brand in BrandWhitelist then 5.0 else 0.0)
    - p.rank as real / 100000.0
  }

  /** lib/keepaUtils.js:886-892, accumulating into `score`. */
  method PriorityScore(p: Product) returns (score: real)
    ensures score == Priority(p)
  {
    score := 0.0;
    if p.buyBoxPrice.Some? && p.buyBoxPrice.value > 0.0 {
      score := score + 10.0;
    }
    if p.brand in BrandWhitelist {
      score := score + 5.0;
    }
    score := score - p.rank as real / 100000.0;
  }

  /** A better (lower) rank never lowers the priority of an otherwise equal product. */
  lemma PriorityRankMonotone(p: Product, better: int)
    requires better <= p.rank
    ensures Priority(p.(rank := better)) >= Priority(p)
  {
  }

  // ---------------------------------------------------------------------------
  // callKeepaCategoryAPI: response filter (289-295) and mapping (297-309)

  /** One product of a category response, as the API sends it. */
  datatype CategoryApiItem = CategoryApiItem(
    asin: string, upc: string, title: string, brand: string,
    buyBoxPrice: Option<real>,
    rank: Option<int>,                 // p.rank, read by the filter
    salesRank: Option<seq<Option<int>>>, // p.salesRank[i].rank, read by the mapping
    hazmat: Option<bool>,
    variationHash: string,
    weight: Option<real>,
    size: Option<real>)

  /** The options destructured at the top of `callKeepaCategoryAPI`, after defaults. */
  datatype CategoryOptions = CategoryOptions(
    hazmat: Option<bool>, maxRank: int, weightLimit: Option<real>, sizeLimit: Option<real>)

  /** `{ hazmat = false, maxRank = 20000 }` applied to the caller's options */
  function WithDefaults(hazmat: Option<bool>, maxRank: Option<int>, weightLimit: Option<real>, sizeLimit: Option<real>): CategoryOptions {
    CategoryOptions(Some(hazmat.GetOr(false)), maxRank.GetOr(20000), weightLimit, sizeLimit)
  }

  /** A truthy number: present and not zero */
  predicate Truthy(x: Option<real>) {
    x.Some? && x.value != 0.0
  }

  const CategoryApiOrder: seq<Reason> := [HazmatMismatch, RankAboveCeiling, TooHeavy, Oversize]

  predicate CategoryApiFails(o: CategoryOptions, p: CategoryApiItem, r: Reason) {
    match r
    case HazmatMismatch => o.hazmat.Some? && p.hazmat != o.hazmat
    case RankAboveCeiling => o.maxRank != 0 && p.rank.Some? && p.rank.value > o.maxRank
    case TooHeavy => Truthy(o.weightLimit) && Truthy(p.weight) && p.weight.value > o.weightLimit.value
    case Oversize => Truthy(o.sizeLimit) && Truthy(p.size) && p.size.value > o.sizeLimit.value
    case _ => false
  }

  function CategoryApiFilter(o: CategoryOptions, p: CategoryApiItem): (d: Decision)
    ensures d == FirstFailure(CategoryApiOrder, r => CategoryApiFails(o, p, r))
    ensures d.Accept? <==>
      && (o.hazmat.None? || p.hazmat == o.hazmat)
      && !(o.maxRank != 0 && p.rank.Some? && p.rank.value > o.maxRank)
      && !(Truthy(o.weightLimit) && Truthy(p.weight) && p.weight.value > o.weightLimit.value)
      && !(Truthy(o.sizeLimit) && Truthy(p.size) && p.size.value > o.sizeLimit.value)
  {
    if o.hazmat.Some? && p.hazmat != o.hazmat then Reject(HazmatMismatch)
    else if o.maxRank != 0 && p.rank.Some? && p.rank.value > o.maxRank then Reject(RankAboveCeiling)
    else if Truthy(o.weightLimit) && Truthy(p.weight) && p.weight.value > o.weightLimit.value then Reject(TooHeavy)
    else if Truthy(o.sizeLimit) && Truthy(p.size) && p.size.value > o.sizeLimit.value then Reject(Oversize)
    else Accept
  }

  /** With the default options, a product whose hazmat flag is absent is rejected: `undefined !== false`. */
  lemma CategoryApiDefaultRejectsUnflagged(p: CategoryApiItem)
    requires p.hazmat.None?
    ensures CategoryApiFilter(WithDefaults(None, None, None, None), p) == Reject(HazmatMismatch)
  {
  }

  /** With the default options, the rank ceiling 20000 is inclusive and a missing rank passes it. */
  lemma CategoryApiDefaultRankBoundary(p: CategoryApiItem)
    requires p.hazmat == Some(false)
    ensures CategoryApiFilter(WithDefaults(None, None, None, None), p.(rank := Some(20000))).Accept?
    ensures CategoryApiFilter(WithDefaults(None, None, None, None), p.(rank := None)).Accept?
    ensures CategoryApiFilter(WithDefaults(None, None, None, None), p.(rank := Some(20001))) == Reject(RankAboveCeiling)
  {
  }

  /** The product record a category scan works on (the mapping's output). */
  datatype CategoryProduct = CategoryProduct(
    asin: string, upc: string, title: string, brand: string,
    buyBoxPrice: real, rank: int, hazmat: bool, variationHash: string,
    weight: Option<real>, size: Option<real>, category: string,
    buyBoxSellerId: Option<string>)

  /** `p.salesRank ? p.salesRank[0]?.rank || 999999 : 999999` */
  function MappedRank(salesRank: Option<seq<Option<int>>>): (r: int)
    ensures r == MissingRank || (salesRank.Some? && |salesRank.value| > 0 && salesRank.value[0] == Some(r) && r != 0)
  {
    if salesRank.Some? && |salesRank.value| > 0 && salesRank.value[0].Some? && salesRank.value[0].value != 0
    then salesRank.value[0].value
    else MissingRank
  }

  function ToCategoryProduct(category: string, p: CategoryApiItem): (q: CategoryProduct)
    ensures q.asin == p.asin && q.upc == p.upc && q.brand == p.brand && q.category == category
    ensures q.buyBoxPrice == (if Truthy(p.buyBoxPrice) then p.buyBoxPrice.value else 0.0)
    ensures q.hazmat <==> p.hazmat == Some(true)
    ensures q.buyBoxSellerId.None?
  {
    CategoryProduct(
      asin := p.asin, upc := p.upc, title := p.title, brand := p.brand,
      buyBoxPrice := if Truthy(p.buyBoxPrice) then p.buyBoxPrice.value else 0.0,
      rank := MappedRank(p.salesRank),
      hazmat := p.hazmat == Some(true),
      variationHash := p.variationHash,
      weight := p.weight, size := p.size, category := category,
      buyBoxSellerId := None)
  }

  /** The `filter` callback of `callKeepaCategoryAPI`. */
  function AcceptedBy(o: CategoryOptions): CategoryApiItem -> bool {
    p => CategoryApiFilter(o, p).Accept?
  }

  /** The `map` callback of `callKeepaCategoryAPI`. */
  function MappedTo(category: string): CategoryApiItem -> CategoryProduct {
    p => ToCategoryProduct(category, p)
  }

  /** The non-HTTP part of `callKeepaCategoryAPI`: no `products` gives [], else filter then map.
      Every accepted item appears, and nothing else does; the order is stated by the two lemmas
      below. */
  function CategoryApiResult(category: string, o: CategoryOptions, products: Option<seq<CategoryApiItem>>): (r: seq<CategoryProduct>)
    ensures products.None? ==> r == []
    ensures products.Some? ==> |r| <= |products.value|
    ensures forall q :: q in r ==> q.category == category && q.buyBoxSellerId.None?
    ensures products.Some? ==> forall q :: q in r ==>
      exists p :: p in products.value && CategoryApiFilter(o, p).Accept? && q == ToCategoryProduct(category, p)
    ensures products.Some? ==> forall p :: p in products.value && CategoryApiFilter(o, p).Accept? ==>
      ToCategoryProduct(category, p) in r
  {
    match products
    case None => []
    case Some(items) =>
      var kept := Seqs.Filter(AcceptedBy(o), items);
      assert forall p :: p in items && CategoryApiFilter(o, p).Accept? ==> p in kept;
      Seqs.Map(MappedTo(category), kept)
  }

  /** The response is handled item by item: the result for two runs of items is the
      result for the first followed by the result for the second. */
  lemma {:induction false} CategoryApiResultAppend(category: string, o: CategoryOptions, a: seq<CategoryApiItem>, b: seq<CategoryApiItem>)
    ensures CategoryApiResult(category, o, Some(a + b)) ==
            CategoryApiResult(category, o, Some(a)) + CategoryApiResult(category, o, Some(b))
  {
    Seqs.FilterAppend(AcceptedBy(o), a, b);
    Seqs.MapAppend(MappedTo(category), Seqs.Filter(AcceptedBy(o), a), Seqs.Filter(AcceptedBy(o), b));
  }

  /** One item is mapped when the filter accepts it and dropped otherwise; with the lemma
      above this fixes the result of any response, order included. */
  lemma CategoryApiResultSingle(category: string, o: CategoryOptions, p: CategoryApiItem)
    ensures CategoryApiResult(category, o, Some([p])) ==
            if CategoryApiFilter(o, p).Accept? then [ToCategoryProduct(category, p)] else []
  {
    assert [p][1..] == [];
  }
}
