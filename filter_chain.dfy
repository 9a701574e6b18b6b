/**
 * The shape shared by every filter of the scan pipeline: an ordered list of checks,
 * evaluated with short-circuit, where the first failing check rejects and names
 * the reason.
 */
module FilterChain {

  /** Why a product was turned away; each filter uses a subset, in its own order. */
  datatype Reason =
    | NoIdentifier      // no upc
    | Hazmat            // flagged as hazardous material
    | HazmatMismatch    // hazmat flag differs from the requested one
    | RankAboveCeiling  // sales rank above the ceiling
    | Blacklisted       // brand on the blacklist
    | NotWhitelisted    // whitelist configured and brand not on it
    | BrandRefused      // the case-insensitive brand gate said no
    | NoBuyBoxPrice     // buy-box price absent, zero or negative
    | TooHeavy          // weight above the limit
    | Oversize          // size above the limit, or an oversize label
    | AmazonBuyBox      // Amazon holds the buy box
    | AlreadySeen       // already cached or stored

  datatype Decision = Accept | Reject(reason: Reason)

  /**
   * The reference semantics of a short-circuit chain: walk `order` and stop at the
   * first reason whose check fails.
   */
  function FirstFailure(order: seq<Reason>, fails: Reason -> bool): Decision {
    if order == [] then Accept
    else if fails(order[0]) then Reject(order[0])
    else FirstFailure(order[1..], fails)
  }

  /** No reason in `prefix` fails. */
  predicate Passes(prefix: seq<Reason>, fails: Reason -> bool) {
    forall j :: 0 <= j < |prefix| ==> !fails(prefix[j])
  }

  /**
   * A chain accepts exactly when no check fails; when it rejects, the reason it names
   * fails, and every check before it in the order passes.
   */
  lemma {:induction false} FirstFailureMeaning(order: seq<Reason>, fails: Reason -> bool)
    ensures FirstFailure(order, fails).Accept? <==> Passes(order, fails)
    ensures FirstFailure(order, fails).Reject? ==>
      var r := FirstFailure(order, fails).reason;
      fails(r) && exists i :: 0 <= i < |order| && order[i] == r && Passes(order[..i], fails)
  {
    if order != [] {
      if fails(order[0]) {
        assert Passes(order[..0], fails);
      } else {
        FirstFailureMeaning(order[1..], fails);
        var d := FirstFailure(order[1..], fails);
        if d.Reject? {
          var i :| 0 <= i < |order[1..]| && order[1..][i] == d.reason && Passes(order[1..][..i], fails);
          assert order[..i + 1] == [order[0]] + order[1..][..i];
        } else {
          assert forall j :: 1 <= j < |order| ==> order[j] == order[1..][j - 1];
        }
      }
    }
  }
}
