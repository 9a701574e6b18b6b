/**
 * The handler of pages/api/getCategoryProducts.js as a function: the request, the fetched
 * product list and the time give the response and the upsert operations handed to
 * `bulkWrite`; applying those operations to the products store is a second function.
 */
module CategoryProducts {
  import opened Wrappers
  import opened CategorySweep
  import Seqs

  /** The `$set` document of one operation. */
  datatype ProductRecord = ProductRecord(
    upc: string, asin: string, title: string, brand: string, category: string,
    usPrice: Option<real>, lastSeen: int)

  /** `{ updateOne: { filter: { upc }, update: { $set: doc }, upsert: true } }` */
  datatype UpsertOp = UpsertOp(upc: string, doc: ProductRecord)

  datatype Response =
    | MethodNotAllowed                                             // 405
    | CategoryRequired                                             // 400
    | NoProducts                                                   // 404
    | Filtered(category: string, totalProducts: nat, queuedProducts: nat)  // 200

  function Status(r: Response): int {
    match r
    case MethodNotAllowed => 405
    case CategoryRequired => 400
    case NoProducts => 404
    case Filtered(_, _, _) => 200
  }

  datatype Outcome = Outcome(response: Response, ops: seq<UpsertOp>)

  /** `p.buyBoxPrice || p.price` */
  function UsPrice(p: SweepItem): Option<real> {
    if Falsy(p.buyBoxPrice) then p.price else p.buyBoxPrice
  }

  /** The `.map` callback (65-81). */
  function OpOf(category: string, now: int, p: SweepItem): (op: UpsertOp)
    ensures op.upc == op.doc.upc == p.upc && op.doc.asin == p.asin && op.doc.brand == p.brand
    ensures op.doc.category == category && op.doc.lastSeen == now
  {
    UpsertOp(p.upc, ProductRecord(p.upc, p.asin, p.title, p.brand, category, UsPrice(p), now))
  }

  function KeptItems(category: string, items: seq<SweepItem>): (r: seq<SweepItem>)
    ensures |r| <= |items|
    ensures forall p :: p in r <==> p in items && Kept(CategoryProductsConfig, category, p)
  {
    Seqs.Filter((p: SweepItem) => Kept(CategoryProductsConfig, category, p), items)
  }

  /** pages/api/getCategoryProducts.js:28-92; `products` is the response's `products` field. */
  function Handle(httpMethod: string, category: string, products: Option<seq<SweepItem>>, now: int): (o: Outcome)
    ensures httpMethod != "POST" <==> o.response == MethodNotAllowed
    ensures o.response == CategoryRequired <==> httpMethod == "POST" && category == ""
    ensures o.response == NoProducts <==> httpMethod == "POST" && category != "" && (products.None? || products.value == [])
    ensures !o.response.Filtered? ==> o.ops == []
    ensures o.response.Filtered? ==>
      && products.Some?
      && o.response.category == category
      && o.response.totalProducts == |products.value|
      && o.response.queuedProducts == |o.ops| <= o.response.totalProducts
    ensures o.response.Filtered? ==> forall i :: 0 <= i < |o.ops| ==>
      exists p :: p in products.value && Kept(CategoryProductsConfig, category, p) && o.ops[i] == OpOf(category, now, p)
    ensures o.response.Filtered? ==>
      && o.response.queuedProducts == |KeptItems(category, products.value)|
      && forall i :: 0 <= i < |o.ops| ==> o.ops[i] == OpOf(category, now, KeptItems(category, products.value)[i])
  {
    if httpMethod != "POST" then Outcome(MethodNotAllowed, [])
    else if category == "" then Outcome(CategoryRequired, [])
    else if products.None? || products.value == [] then Outcome(NoProducts, [])
    else
      var kept := KeptItems(category, products.value);
      var ops := Seqs.Map((p: SweepItem) => OpOf(category, now, p), kept);
      assert forall i :: 0 <= i < |ops| ==> ops[i] == OpOf(category, now, kept[i]) && kept[i] in kept;
      Outcome(Filtered(category, |products.value|, |kept|), ops)
  }

  /** Nothing that passes the filter is lost: every kept product of an answered request has its
      upsert among the operations, one per kept product in the response's order. */
  lemma KeptProductsAreWritten(httpMethod: string, category: string, products: Option<seq<SweepItem>>, now: int)
    requires Handle(httpMethod, category, products, now).response.Filtered?
    ensures forall p :: p in products.value && Kept(CategoryProductsConfig, category, p) ==>
      OpOf(category, now, p) in Handle(httpMethod, category, products, now).ops
  {
    var o := Handle(httpMethod, category, products, now);
    var kept := KeptItems(category, products.value);
    forall p | p in products.value && Kept(CategoryProductsConfig, category, p)
      ensures OpOf(category, now, p) in o.ops
    {
      var i :| 0 <= i < |kept| && kept[i] == p;
      assert o.ops[i] == OpOf(category, now, p);
    }
  }

  /** Every operation carries the buy-box price as usPrice: the filter has already turned away
      every product whose buy-box price is absent or zero, so `|| p.price` never applies. */
  lemma UsPriceIsBuyBoxPrice(httpMethod: string, category: string, products: Option<seq<SweepItem>>, now: int)
    ensures forall op :: op in Handle(httpMethod, category, products, now).ops ==>
      op.doc.usPrice.Some? && op.doc.usPrice.value != 0.0
      && exists p :: p in products.value && op.doc.usPrice == p.buyBoxPrice && op.upc == p.upc
  {
    var o := Handle(httpMethod, category, products, now);
    forall op | op in o.ops
      ensures op.doc.usPrice.Some? && op.doc.usPrice.value != 0.0
      ensures exists p :: p in products.value && op.doc.usPrice == p.buyBoxPrice && op.upc == p.upc
    {
      var i :| 0 <= i < |o.ops| && o.ops[i] == op;
      var p :| p in products.value && Kept(CategoryProductsConfig, category, p) && op == OpOf(category, now, p);
      assert !Falsy(p.buyBoxPrice);
    }
  }

  /** `bulkWrite(ops)` with upsert: each operation, in order, sets the record of its upc. */
  function BulkWrite(store: map<string, ProductRecord>, ops: seq<UpsertOp>): map<string, ProductRecord> {
    if ops == [] then store
    else BulkWrite(store, ops[..|ops| - 1])[ops[|ops| - 1].upc := ops[|ops| - 1].doc]
  }

  /** The bulk write adds the upcs of the operations and only those, and leaves other records alone. */
  lemma {:induction false} BulkWriteContents(store: map<string, ProductRecord>, ops: seq<UpsertOp>)
    ensures BulkWrite(store, ops).Keys == store.Keys + set op | op in ops :: op.upc
    ensures forall u :: u in store && (forall op :: op in ops ==> op.upc != u) ==> BulkWrite(store, ops)[u] == store[u]
    ensures forall u :: u in BulkWrite(store, ops) && u !in store ==> exists op :: op in ops && op.upc == u && BulkWrite(store, ops)[u] == op.doc
  {
    if ops != [] {
      var init := ops[..|ops| - 1];
      var last := ops[|ops| - 1];
      BulkWriteContents(store, init);
      assert ops == init + [last];
      assert (set op | op in ops :: op.upc) == (set op | op in init :: op.upc) + {last.upc};
      forall u | u in BulkWrite(store, ops) && u !in store
        ensures exists op :: op in ops && op.upc == u && BulkWrite(store, ops)[u] == op.doc
      {
        if u != last.upc {
          var op :| op in init && op.upc == u && BulkWrite(store, init)[u] == op.doc;
          assert op in ops;
        } else {
          assert last in ops;
        }
      }
    }
  }

  /** A request that is not answered with 200 leaves the store as it was (`bulkWrite` is skipped
      for an empty list). */
  lemma RefusedRequestWritesNothing(store: map<string, ProductRecord>, httpMethod: string, category: string, products: Option<seq<SweepItem>>, now: int)
    requires Status(Handle(httpMethod, category, products, now).response) != 200
    ensures BulkWrite(store, Handle(httpMethod, category, products, now).ops) == store
  {
  }
}
