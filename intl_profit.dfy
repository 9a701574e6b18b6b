/**
 * lib/calcInternationalProfit.js: the profit and return on investment of buying a product
 * in a source marketplace and selling it through FBA in a target marketplace, with the
 * cost breakdown.
 */
module IntlProfit {
  import opened Wrappers
  import opened Rounding

  /** The fields read from the normalised product; `closingFee` defaults to 0 when absent. */
  datatype Listing = Listing(buyBoxPrice: real, fbaFee: real, referralFee: real, closingFee: Option<real>, weightKg: real)

  /** Marketplace and logistics configuration. */
  datatype Logistics = Logistics(
    buyPrice: real,
    intlShippingPerKg: real,
    customsRate: real,
    fxLossRate: real,
    localShippingSource: real,
    localShippingTarget: real)

  datatype Breakdown = Breakdown(
    buyBoxPrice: real,
    buyPrice: real,
    amazonFees: real,
    intlShipping: real,
    customsCost: real,
    localShipping: real,
    currencyCost: real)

  /** `roi` is None where the source divides by a zero buy price (an infinite or NaN result). */
  datatype IntlProfitResult = IntlProfitResult(netProfit: real, roi: Option<real>, breakdown: Breakdown)

  /** The sale price less every cost in a breakdown. */
  function Net(b: Breakdown): real {
    b.buyBoxPrice - (b.amazonFees + b.buyPrice + b.intlShipping + b.customsCost + b.localShipping + b.currencyCost)
  }

  /** lib/calcInternationalProfit.js:24-45: the costs, left unrounded. */
  function CostBreakdown(k: Listing, c: Logistics): (b: Breakdown)
    ensures b.buyBoxPrice == k.buyBoxPrice && b.buyPrice == c.buyPrice
    ensures b.amazonFees == k.fbaFee + k.referralFee + k.closingFee.GetOr(0.0)
    ensures b.intlShipping == k.weightKg * c.intlShippingPerKg
    ensures b.customsCost == c.buyPrice * c.customsRate
    ensures b.localShipping == c.localShippingSource + c.localShippingTarget
    ensures b.currencyCost == (c.buyPrice + b.intlShipping) * c.fxLossRate
  {
    var amazonFees := k.fbaFee + k.referralFee + k.closingFee.GetOr(0.0);
    var intlShipping := k.weightKg * c.intlShippingPerKg;
    var customsCost := c.buyPrice * c.customsRate;
    var localShipping := c.localShippingSource + c.localShippingTarget;
    var currencyCost := (c.buyPrice + intlShipping) * c.fxLossRate;
    Breakdown(k.buyBoxPrice, c.buyPrice, amazonFees, intlShipping, customsCost, localShipping, currencyCost)
  }

  /** lib/calcInternationalProfit.js:6-74: net profit and return rounded to two decimals, the
      breakdown returned as computed. */
  function CalcInternationalProfit(k: Listing, c: Logistics): (r: IntlProfitResult)
    ensures r.breakdown == CostBreakdown(k, c)
    ensures r.netProfit == ToFixed2(Net(r.breakdown))
    ensures Net(r.breakdown) - 0.005 <= r.netProfit <= Net(r.breakdown) + 0.005
    ensures r.roi.Some? <==> c.buyPrice != 0.0
    ensures r.roi.Some? ==> r.roi.value == ToFixed2(Net(r.breakdown) / c.buyPrice * 100.0)
  {
    var b := CostBreakdown(k, c);
    var netProfit := b.buyBoxPrice - b.amazonFees - b.buyPrice - b.intlShipping - b.customsCost - b.localShipping - b.currencyCost;
    var roi := if c.buyPrice == 0.0 then None else Some(ToFixed2(netProfit / c.buyPrice * 100.0));
    IntlProfitResult(ToFixed2(netProfit), roi, b)
  }

  /** Raising the buy-box price by d raises the unrounded net profit by exactly d and leaves every
      cost in the breakdown unchanged. */
  lemma BuyBoxPriceShift(k: Listing, c: Logistics, d: real)
    ensures var r := CostBreakdown(k, c);
            var s := CostBreakdown(k.(buyBoxPrice := k.buyBoxPrice + d), c);
            Net(s) == Net(r) + d && s == r.(buyBoxPrice := k.buyBoxPrice + d)
  {
  }

  /** Every extra unit of buy price costs 1 + customsRate + fxLossRate: itself, customs on it and
      the currency loss on it. */
  lemma BuyPriceMarginalCost(k: Listing, c: Logistics, d: real)
    ensures Net(CostBreakdown(k, c.(buyPrice := c.buyPrice + d)))
            == Net(CostBreakdown(k, c)) - d * (1.0 + c.customsRate + c.fxLossRate)
  {
    var r := CostBreakdown(k, c);
    var s := CostBreakdown(k, c.(buyPrice := c.buyPrice + d));
    assert s.customsCost == r.customsCost + d * c.customsRate;
    assert s.currencyCost == (c.buyPrice + r.intlShipping) * c.fxLossRate + d * c.fxLossRate;
  }

  /** An absent closing fee is the same as a closing fee of 0. */
  lemma ClosingFeeDefaultsToZero(k: Listing, c: Logistics)
    requires k.closingFee.None?
    ensures CalcInternationalProfit(k, c) == CalcInternationalProfit(k.(closingFee := Some(0.0)), c)
  {
    assert CostBreakdown(k, c) == CostBreakdown(k.(closingFee := Some(0.0)), c);
  }

  /** For a positive buy price the unrounded return has the sign of the unrounded profit. */
  lemma RoiSignFollowsProfit(k: Listing, c: Logistics)
    requires c.buyPrice > 0.0
    ensures var n := Net(CostBreakdown(k, c));
            (n / c.buyPrice * 100.0 > 0.0 <==> n > 0.0) && (n / c.buyPrice * 100.0 < 0.0 <==> n < 0.0)
  {
    var n := Net(CostBreakdown(k, c));
    if n > 0.0 {
      assert n / c.buyPrice > 0.0;
    } else if n < 0.0 {
      assert n / c.buyPrice < 0.0;
    } else {
      assert n / c.buyPrice == 0.0;
    }
  }
}
