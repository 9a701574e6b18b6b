/**
 * Amazon's share of the buy box (lib/keepaUtils.js): `getAmazonBuyBoxShare`, a
 * `reduce` over the two Amazon seller ids, and `getAmazonBuyBoxPercentage`, the same
 * sum written as a `for` loop and rounded to two decimals.
 */
module BuyBox {
  import opened Wrappers
  import opened Rounding

  const AmazonUs := "ATVPDKIKX0DER"
  const AmazonEu := "A1AM78C64UM0Y8"
  const AmazonSellerIds: seq<string> := [AmazonUs, AmazonEu]

  /** `lastSeenDaysAgo` as the JSON carries it: missing, an explicit `null`, or a number of days.
      The two empty forms differ downstream, since only a missing field is `undefined`. */
  datatype LastSeen = NotRecorded | RecordedNull | DaysAgo(days: int)

  /** One seller's entry in `stats.buyBoxStats`. */
  datatype BuyBoxEntry = BuyBoxEntry(percentage: Option<real>, lastSeenDaysAgo: LastSeen)

  /** The part of a product's `stats` object read by the buy-box and seller signals. */
  datatype Stats = Stats(
    buyBoxStats: Option<map<string, BuyBoxEntry>>,
    offerCountFBA: Option<int>,
    offerCountFBA30: Option<int>,
    offerCountFBA90: Option<int>,
    amazonSellerCount: Option<int>)

  /** `stats[id]?.percentage || 0` */
  function SellerShare(bb: map<string, BuyBoxEntry>, id: string): real {
    if id in bb && bb[id].percentage.Some? then bb[id].percentage.value else 0.0
  }

  /** The shares of `ids`, added up from the left. */
  function SumShares(bb: map<string, BuyBoxEntry>, ids: seq<string>): real {
    if ids == [] then 0.0 else SumShares(bb, ids[..|ids| - 1]) + SellerShare(bb, ids[|ids| - 1])
  }

  /** lib/keepaUtils.js:67-75 */
  function AmazonBuyBoxShare(stats: Option<Stats>): (share: real)
    ensures stats.None? || stats.value.buyBoxStats.None? ==> share == 0.0
    ensures stats.Some? && stats.value.buyBoxStats.Some? ==>
      share == SellerShare(stats.value.buyBoxStats.value, AmazonUs) + SellerShare(stats.value.buyBoxStats.value, AmazonEu)
  {
    if stats.None? || stats.value.buyBoxStats.None? then 0.0
    else
      var bb := stats.value.buyBoxStats.value;
      assert [AmazonUs][..0] == [];
      assert SumShares(bb, [AmazonUs]) == SellerShare(bb, AmazonUs);
      assert AmazonSellerIds[..1] == [AmazonUs];
      SumShares(bb, AmazonSellerIds)
  }

  /** lib/keepaUtils.js:557-571, summing into `amazonPercentage` over the seller ids. */
  method AmazonBuyBoxPercentage(stats: Option<Stats>) returns (pct: real)
    ensures pct == ToFixed2(AmazonBuyBoxShare(stats))
  {
    if stats.None? || stats.value.buyBoxStats.None? {
      ToFixed2OfTwoDecimals(0.0);
      return 0.0;
    }
    var bb := stats.value.buyBoxStats.value;
    var amazonPercentage := 0.0;
    for i := 0 to |AmazonSellerIds|
      invariant amazonPercentage == SumShares(bb, AmazonSellerIds[..i])
    {
      var sellerId := AmazonSellerIds[i];
      if sellerId in bb {
        amazonPercentage := amazonPercentage + (if bb[sellerId].percentage.Some? then bb[sellerId].percentage.value else 0.0);
      }
      assert AmazonSellerIds[..i + 1][..i] == AmazonSellerIds[..i];
    }
    assert AmazonSellerIds[..|AmazonSellerIds|] == AmazonSellerIds;
    pct := ToFixed2(amazonPercentage);
  }

  /** With every recorded percentage in [0,100], the summed share lies in [0,200]; nothing caps it at 100. */
  lemma AmazonShareBounds(stats: Option<Stats>)
    requires stats.Some? && stats.value.buyBoxStats.Some?
    requires forall id :: id in stats.value.buyBoxStats.value && stats.value.buyBoxStats.value[id].percentage.Some?
               ==> 0.0 <= stats.value.buyBoxStats.value[id].percentage.value <= 100.0
    ensures 0.0 <= AmazonBuyBoxShare(stats) <= 200.0
  {
  }
}
