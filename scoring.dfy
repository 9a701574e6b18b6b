/**
 * The profit side of the scoring engine in lib/keepaUtils.js: fees, shipping, the
 * risk multiplier, the opportunity score, the rounded profit score and the
 * cost-based international profit. Money is exact (real); weights are in grams.
 */
module Scoring {
  import opened Wrappers
  import opened Rounding

  // ---------------------------------------------------------------------------
  // calculateFees, estimateShipping

  const ReferralRate := 0.15
  const FbaFee := 3.5

  /** lib/keepaUtils.js:327-331 (the awaited value; the asin argument is unused). */
  function CalculateFees(price: real): (fees: real)
    ensures fees - FbaFee == ReferralRate * price
    ensures price >= 0.0 ==> fees >= FbaFee
  {
    price * ReferralRate + FbaFee
  }

  const ShippingBase := 5.0
  const ShippingPerKg := 6.5

  /** `x || y || 0` over optional numbers, where 0 counts as absent */
  function FirstTruthy(x: Option<real>, y: Option<real>): (w: real)
    ensures x.Some? && x.value != 0.0 ==> w == x.value
    ensures (x.None? || x.value == 0.0) && y.Some? ==> w == y.value
    ensures (x.None? || x.value == 0.0) && y.None? ==> w == 0.0
  {
    if x.Some? && x.value != 0.0 then x.value
    else if y.Some? && y.value != 0.0 then y.value
    else 0.0
  }

  /** lib/keepaUtils.js:339-344: base cost plus a per-kilogram rate on the US weight in grams. */
  function EstimateShipping(weight: Option<real>, packageWeight: Option<real>): (s: real)
    ensures (s - ShippingBase) / ShippingPerKg * 1000.0 == FirstTruthy(weight, packageWeight)
  {
    var w := FirstTruthy(weight, packageWeight);
    ShippingBase + (if w != 0.0 then (w / 1000.0) * ShippingPerKg else 0.0)
  }

  /** 1200 g ships for 12.8; a product with no weight at all ships for exactly the base cost. */
  lemma ShippingExamples()
    ensures EstimateShipping(None, Some(1200.0)) == 12.8
    ensures EstimateShipping(Some(1200.0), None) == 12.8
    ensures EstimateShipping(None, None) == ShippingBase
    ensures EstimateShipping(Some(0.0), Some(0.0)) == ShippingBase
  {
  }

  /** Heavier parcels never ship for less. */
  lemma ShippingMonotone(a: real, b: real)
    requires 0.0 <= a <= b
    ensures EstimateShipping(Some(a), None) <= EstimateShipping(Some(b), None)
  {
  }

  // ---------------------------------------------------------------------------
  // calculateRiskMultiplier

  /** The arguments of `calculateRiskMultiplier`, in order. */
  datatype RiskFlags = RiskFlags(
    isSameUpc: bool, isTitleMatch: bool, isVariationDiff: bool, isHazmat: bool, otherFlag: bool)

  const UpcPenalty := 0.9
  const TitlePenalty := 0.85
  const VariationPenalty := 0.95
  const HazmatPenalty := 0.7
  const OtherPenalty := 0.9

  /** The penalty factors that apply to `f`, in the order the source applies them. */
  function Penalties(f: RiskFlags): (ps: seq<real>)
    ensures |ps| <= 5
    ensures forall i :: 0 <= i < |ps| ==> 0.0 < ps[i] < 1.0
    ensures ps == [] <==> f.isSameUpc && f.isTitleMatch && !f.isVariationDiff && !f.isHazmat && !f.otherFlag
  {
    Opt(!f.isSameUpc, UpcPenalty) + Opt(!f.isTitleMatch, TitlePenalty) + Opt(f.isVariationDiff, VariationPenalty)
    + Opt(f.isHazmat, HazmatPenalty) + Opt(f.otherFlag, OtherPenalty)
  }

  /** `[penalty]` when the factor applies, else nothing. */
  function Opt(applies: bool, penalty: real): (ps: seq<real>)
    ensures |ps| <= 1 && (forall x :: x in ps ==> x == penalty)
    ensures ps == [] <==> !applies
  {
    if applies then [penalty] else []
  }

  /** The product of a list of factors. */
  function Product(xs: seq<real>): real {
    if xs == [] then 1.0 else xs[0] * Product(xs[1..])
  }

  /** The risk multiplier: the product of the applicable penalty factors. */
  function RiskMultiplier(f: RiskFlags): real {
    Product(Penalties(f))
  }

  /** lib/keepaUtils.js:359-375, multiplying `risk` down one flag at a time. */
  method CalculateRiskMultiplier(f: RiskFlags) returns (risk: real)
    ensures risk == RiskMultiplier(f)
  {
    risk := 1.0;
    if !f.isSameUpc {
      risk := risk * UpcPenalty;
    }
    assert risk == Factor(!f.isSameUpc, UpcPenalty);
    if !f.isTitleMatch {
      risk := risk * TitlePenalty;
    }
    assert risk == Factor(!f.isSameUpc, UpcPenalty) * Factor(!f.isTitleMatch, TitlePenalty);
    if f.isVariationDiff {
      risk := risk * VariationPenalty;
    }
    assert risk == Factor(!f.isSameUpc, UpcPenalty) * Factor(!f.isTitleMatch, TitlePenalty)
      * Factor(f.isVariationDiff, VariationPenalty);
    if f.isHazmat {
      risk := risk * HazmatPenalty;
    }
    assert risk == Factor(!f.isSameUpc, UpcPenalty) * Factor(!f.isTitleMatch, TitlePenalty)
      * Factor(f.isVariationDiff, VariationPenalty) * Factor(f.isHazmat, HazmatPenalty);
    if f.otherFlag {
      risk := risk * OtherPenalty;
    }
    RiskMultiplierClosedForm(f);
  }

  /** One more `risk *= x` step multiplies the product by `x`. */
  lemma ProductSnoc(xs: seq<real>, x: real)
    ensures Product(xs + [x]) == Product(xs) * x
  {
    ProductAppend(xs, [x]);
    assert Product([x]) == x * Product([]);
  }

  /** The product of a concatenation is the product of the products. */
  lemma {:induction false} ProductAppend(xs: seq<real>, ys: seq<real>)
    ensures Product(xs + ys) == Product(xs) * Product(ys)
  {
    if xs == [] {
      assert xs + ys == ys;
    } else {
      assert (xs + ys)[1..] == xs[1..] + ys;
      ProductAppend(xs[1..], ys);
      assert Product(xs + ys) == xs[0] * (Product(xs[1..]) * Product(ys));
    }
  }

  /** A product of factors in (0,1] lies in (0,1], and is below 1 when any factor is. */
  lemma {:induction false} ProductInUnitInterval(xs: seq<real>)
    requires forall i :: 0 <= i < |xs| ==> 0.0 < xs[i] <= 1.0
    ensures 0.0 < Product(xs) <= 1.0
    ensures (exists i :: 0 <= i < |xs| && xs[i] < 1.0) ==> Product(xs) < 1.0
  {
    if xs != [] {
      ProductInUnitInterval(xs[1..]);
      var rest := Product(xs[1..]);
      assert 0.0 < xs[0] * rest <= 1.0 by {
        MulUnit(xs[0], rest);
      }
      if exists i :: 0 <= i < |xs| && xs[i] < 1.0 {
        var i :| 0 <= i < |xs| && xs[i] < 1.0;
        if i == 0 {
          MulBelowOne(xs[0], rest);
        } else {
          assert xs[1..][i - 1] < 1.0;
          MulBelowOne(rest, xs[0]);
        }
      }
    }
  }

  lemma MulUnit(a: real, b: real)
    requires 0.0 < a <= 1.0 && 0.0 < b <= 1.0
    ensures 0.0 < a * b <= 1.0
  {
    assert a * b <= a * 1.0;
  }

  lemma MulBelowOne(a: real, b: real)
    requires 0.0 < a < 1.0 && 0.0 < b <= 1.0
    ensures a * b < 1.0
  {
    assert a * b <= a * 1.0;
  }

  /** The multiplier lies in (0,1] and equals 1 exactly when no penalty applies. */
  lemma RiskMultiplierRange(f: RiskFlags)
    ensures 0.0 < RiskMultiplier(f) <= 1.0
    ensures RiskMultiplier(f) == 1.0 <==> Penalties(f) == []
  {
    var ps := Penalties(f);
    ProductInUnitInterval(ps);
    if ps != [] {
      assert ps[0] < 1.0;
    }
  }

  /** Removing the k-th factor divides it out of the product. */
  lemma {:induction false} ProductRemove(xs: seq<real>, k: nat)
    requires k < |xs|
    ensures Product(xs) == xs[k] * Product(xs[..k] + xs[k + 1..])
  {
    if k == 0 {
      assert xs[..0] + xs[1..] == xs[1..];
    } else {
      ProductRemove(xs[1..], k - 1);
      assert xs[..k] + xs[k + 1..] == [xs[0]] + (xs[1..][..k - 1] + xs[1..][k..]);
      var rest := Product(xs[1..][..k - 1] + xs[1..][k..]);
      assert Product(xs[..k] + xs[k + 1..]) == xs[0] * rest;
      assert Product(xs) == xs[0] * (xs[k] * rest);
    }
  }

  /** The product does not depend on the order of the factors. */
  lemma {:induction false} ProductPermutation(xs: seq<real>, ys: seq<real>)
    requires multiset(xs) == multiset(ys)
    ensures Product(xs) == Product(ys)
  {
    if xs == [] {
      assert |ys| == |multiset(ys)| == 0;
    } else {
      var k, rest := MatchHead(xs, ys);
      ProductPermutation(xs[1..], rest);
      ProductRemove(ys, k);
    }
  }

  /** The head of `xs` occurs in its permutation `ys`; what remains are permutations too. */
  lemma MatchHead(xs: seq<real>, ys: seq<real>) returns (k: nat, rest: seq<real>)
    requires xs != [] && multiset(xs) == multiset(ys)
    ensures k < |ys| && ys[k] == xs[0]
    ensures rest == ys[..k] + ys[k + 1..]
    ensures multiset(xs[1..]) == multiset(rest)
  {
    var x := xs[0];
    assert x in multiset(ys);
    k :| 0 <= k < |ys| && ys[k] == x;
    rest := ys[..k] + ys[k + 1..];
    assert ys == ys[..k] + [ys[k]] + ys[k + 1..];
    assert multiset(ys) == multiset(rest) + multiset{x};
    assert xs == [x] + xs[1..];
    assert multiset(xs) == multiset{x} + multiset(xs[1..]);
    assert multiset(xs[1..]) == multiset(xs) - multiset{x};
    assert multiset(rest) == multiset(ys) - multiset{x};
  }

  /** The five factors composed in any order give the same multiplier. */
  lemma RiskMultiplierOrderIndependent(f: RiskFlags, reordered: seq<real>)
    requires multiset(reordered) == multiset(Penalties(f))
    ensures Product(reordered) == RiskMultiplier(f)
  {
    ProductPermutation(reordered, Penalties(f));
  }

  /** Every penalty flag set in `f` is also set in `g`. */
  predicate FewerPenalties(f: RiskFlags, g: RiskFlags) {
    && (!f.isSameUpc ==> !g.isSameUpc)
    && (!f.isTitleMatch ==> !g.isTitleMatch)
    && (f.isVariationDiff ==> g.isVariationDiff)
    && (f.isHazmat ==> g.isHazmat)
    && (f.otherFlag ==> g.otherFlag)
  }

  function Factor(applies: bool, penalty: real): real {
    if applies then penalty else 1.0
  }

  /** A factor that may or may not be present in front of a list multiplies its product by `Factor`. */
  lemma OptionalFactor(applies: bool, penalty: real, rest: seq<real>)
    ensures Product(Opt(applies, penalty) + rest) == Factor(applies, penalty) * Product(rest)
  {
    if applies {
      assert ([penalty] + rest)[1..] == rest;
    } else {
      assert [] + rest == rest;
    }
  }

  /** The product of the penalty list, peeled one optional factor at a time. */
  lemma PenaltiesProduct(f: RiskFlags)
    ensures RiskMultiplier(f) ==
      Factor(!f.isSameUpc, UpcPenalty) * (Factor(!f.isTitleMatch, TitlePenalty)
      * (Factor(f.isVariationDiff, VariationPenalty) * (Factor(f.isHazmat, HazmatPenalty)
      * Factor(f.otherFlag, OtherPenalty))))
  {
    var a, b, c := Opt(!f.isSameUpc, UpcPenalty), Opt(!f.isTitleMatch, TitlePenalty), Opt(f.isVariationDiff, VariationPenalty);
    var d, e := Opt(f.isHazmat, HazmatPenalty), Opt(f.otherFlag, OtherPenalty);
    RightNested(a, b, c, d, e);
    OptionalFactor(f.otherFlag, OtherPenalty, []);
    assert e + [] == e;
    OptionalFactor(f.isHazmat, HazmatPenalty, e);
    OptionalFactor(f.isVariationDiff, VariationPenalty, d + e);
    OptionalFactor(!f.isTitleMatch, TitlePenalty, c + (d + e));
    OptionalFactor(!f.isSameUpc, UpcPenalty, b + (c + (d + e)));
  }

  lemma RightNested(a: seq<real>, b: seq<real>, c: seq<real>, d: seq<real>, e: seq<real>)
    ensures a + b + c + d + e == a + (b + (c + (d + e)))
  {
  }

  lemma Reassociate5(a: real, b: real, c: real, d: real, e: real)
    ensures a * (b * (c * (d * e))) == a * b * c * d * e
  {
  }

  /** The multiplier as a product of five per-flag factors. */
  lemma RiskMultiplierClosedForm(f: RiskFlags)
    ensures RiskMultiplier(f) ==
      Factor(!f.isSameUpc, UpcPenalty) * Factor(!f.isTitleMatch, TitlePenalty)
      * Factor(f.isVariationDiff, VariationPenalty) * Factor(f.isHazmat, HazmatPenalty)
      * Factor(f.otherFlag, OtherPenalty)
  {
    PenaltiesProduct(f);
    Reassociate5(Factor(!f.isSameUpc, UpcPenalty), Factor(!f.isTitleMatch, TitlePenalty),
      Factor(f.isVariationDiff, VariationPenalty), Factor(f.isHazmat, HazmatPenalty), Factor(f.otherFlag, OtherPenalty));
  }

  /** Setting more penalty flags never raises the multiplier. */
  lemma RiskMultiplierMonotone(f: RiskFlags, g: RiskFlags)
    requires FewerPenalties(f, g)
    ensures RiskMultiplier(g) <= RiskMultiplier(f)
  {
    RiskMultiplierClosedForm(f);
    RiskMultiplierClosedForm(g);
    FactorLe(!f.isSameUpc, !g.isSameUpc, UpcPenalty);
    FactorLe(!f.isTitleMatch, !g.isTitleMatch, TitlePenalty);
    FactorLe(f.isVariationDiff, g.isVariationDiff, VariationPenalty);
    FactorLe(f.isHazmat, g.isHazmat, HazmatPenalty);
    FactorLe(f.otherFlag, g.otherFlag, OtherPenalty);
    Mul5Monotone(
      Factor(!g.isSameUpc, UpcPenalty), Factor(!g.isTitleMatch, TitlePenalty),
      Factor(g.isVariationDiff, VariationPenalty), Factor(g.isHazmat, HazmatPenalty),
      Factor(g.otherFlag, OtherPenalty),
      Factor(!f.isSameUpc, UpcPenalty), Factor(!f.isTitleMatch, TitlePenalty),
      Factor(f.isVariationDiff, VariationPenalty), Factor(f.isHazmat, HazmatPenalty),
      Factor(f.otherFlag, OtherPenalty));
  }

  lemma Mul5Monotone(a1: real, a2: real, a3: real, a4: real, a5: real, b1: real, b2: real, b3: real, b4: real, b5: real)
    requires 0.0 < a1 <= b1 && 0.0 < a2 <= b2 && 0.0 < a3 <= b3 && 0.0 < a4 <= b4 && 0.0 < a5 <= b5
    ensures a1 * a2 * a3 * a4 * a5 <= b1 * b2 * b3 * b4 * b5
  {
    MulMonotone(a1, a2, b1, b2);
    MulMonotone(a1 * a2, a3, b1 * b2, b3);
    MulMonotone(a1 * a2 * a3, a4, b1 * b2 * b3, b4);
    MulMonotone(a1 * a2 * a3 * a4, a5, b1 * b2 * b3 * b4, b5);
  }

  lemma FactorLe(a: bool, b: bool, penalty: real)
    requires a ==> b
    requires 0.0 < penalty <= 1.0
    ensures 0.0 < Factor(b, penalty) <= Factor(a, penalty)
  {
  }

  /** For positive factors, a product is monotone in each factor. */
  lemma MulMonotone(a: real, b: real, c: real, d: real)
    requires 0.0 < a <= c && 0.0 < b <= d
    ensures 0.0 < a * b <= c * d
  {
    assert a * b <= c * b;
    assert c * b <= c * d;
  }

  // ---------------------------------------------------------------------------
  // Opportunity score (the awaited form used by the queue worker)

  /** `(euBuyBox - usPrice - fees - shipping) * riskMultiplier` */
  function OpportunityScore(euBuyBox: real, usPrice: real, fees: real, shipping: real, risk: real): (s: real)
    ensures risk == 1.0 ==> s == euBuyBox - usPrice - fees - shipping
    ensures risk > 0.0 ==> (s > 0.0 <==> euBuyBox > usPrice + fees + shipping)
  {
    (euBuyBox - usPrice - fees - shipping) * risk
  }

  /** A higher target buy-box price never lowers the score, for a positive multiplier. */
  lemma OpportunityMonotone(eu: real, eu': real, us: real, fees: real, shipping: real, risk: real)
    requires eu <= eu' && risk > 0.0
    ensures OpportunityScore(eu, us, fees, shipping, risk) <= OpportunityScore(eu', us, fees, shipping, risk)
  {
    assert (eu' - us - fees - shipping) * risk - (eu - us - fees - shipping) * risk == (eu' - eu) * risk;
  }

  /** The two worked scenarios: no mismatch gives 17.70; a hazmat flag on one side gives 12.39. */
  lemma OpportunityScenarios()
    ensures OpportunityScore(129.99, 79.99, 19.50, EstimateShipping(None, Some(1200.0)),
      RiskMultiplier(RiskFlags(true, true, false, false, false))) == 17.70
    ensures OpportunityScore(129.99, 79.99, 19.50, EstimateShipping(None, Some(1200.0)),
      RiskMultiplier(RiskFlags(true, true, false, true, false))) == 12.39
  {
    var p := Penalties(RiskFlags(true, true, false, true, false));
    assert p == [HazmatPenalty];
    assert Product(p) == HazmatPenalty * Product([]);
  }

  // ---------------------------------------------------------------------------
  // calculateProfitScore

  /** lib/keepaUtils.js:413-419: 85% of the buy box less the US price and 5, rounded. */
  function CalculateProfitScore(buyBoxPrice: Option<real>, usPrice: Option<real>, csvCurrentPrice: Option<real>): (s: int)
    ensures
      var bb := FirstTruthy(buyBoxPrice, None);
      var exact := 0.85 * bb - FirstTruthy(usPrice, csvCurrentPrice) - ShippingBase;
      exact - 0.5 < s as real <= exact + 0.5
  {
    var buyBox := FirstTruthy(buyBoxPrice, None);
    var us := FirstTruthy(usPrice, csvCurrentPrice);
    var fees := buyBox * ReferralRate;
    JsRound(buyBox - us - fees - ShippingBase)
  }

  // ---------------------------------------------------------------------------
  // calculateInternationalProfit (lib/keepaUtils.js:895-921)

  datatype CostInput = CostInput(
    buyBoxUS: real, referralFee: real, fbaFee: real, shippingCost: real, importCost: real, costEU: real)

  datatype CostProfit = CostProfit(netProfit: real, roi: real, totalCost: real)

  function TotalCost(c: CostInput): real {
    c.costEU + c.shippingCost + c.importCost + c.referralFee + c.fbaFee
  }

  /** ROI is measured against the total cost and is 0 when that cost is not positive. */
  function CalculateInternationalProfit(c: CostInput): (r: CostProfit)
    ensures r.totalCost == ToFixed2(TotalCost(c))
    ensures r.netProfit == ToFixed2(c.buyBoxUS - TotalCost(c))
    ensures TotalCost(c) <= 0.0 ==> r.roi == 0.0
    ensures TotalCost(c) > 0.0 ==> r.roi == ToFixed2((c.buyBoxUS - TotalCost(c)) / TotalCost(c) * 100.0)
  {
    var totalCost := c.costEU + c.shippingCost + c.importCost + c.referralFee + c.fbaFee;
    var netProfit := c.buyBoxUS - totalCost;
    var roi := if totalCost > 0.0 then (netProfit / totalCost) * 100.0 else 0.0;
    ToFixed2OfTwoDecimals(0.0);
    CostProfit(ToFixed2(netProfit), ToFixed2(roi), ToFixed2(totalCost))
  }

  /** Rounded profit and rounded cost add back up to the buy-box price within one cent. */
  lemma InternationalProfitAddsUp(c: CostInput)
    ensures var r := CalculateInternationalProfit(c);
      c.buyBoxUS - 0.01 <= r.netProfit + r.totalCost <= c.buyBoxUS + 0.01
  {
  }

  /** With a positive cost, the ROI is negative only when the (unrounded) profit is. */
  lemma InternationalRoiSign(c: CostInput)
    requires TotalCost(c) > 0.0
    ensures CalculateInternationalProfit(c).roi < 0.0 ==> c.buyBoxUS < TotalCost(c)
  {
    var t := TotalCost(c);
    if c.buyBoxUS >= t {
      assert (c.buyBoxUS - t) / t >= 0.0;
    }
  }
}
