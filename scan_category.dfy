/**
 * The handler of pages/api/scanCategory.js: one category fetch, the sweep filter, then one
 * upsert per kept product keyed by ASIN, writing the product's fields with the category and
 * the time of the scan.
 */
module ScanCategory {
  import opened Wrappers
  import opened CategorySweep
  import Seqs

  /** `{ ...p, category, lastSeen }` */
  datatype SweptRecord = SweptRecord(item: SweepItem, category: string, lastSeen: int)

  /** What the category request gave: it threw, or it answered with or without `products`. */
  datatype Fetched = FetchFailed | Fetched(products: Option<seq<SweepItem>>)

  datatype Response =
    | CategoryRequired                     // 400
    | FetchError                           // 500
    | NoProducts                           // 200, "No products found in Keepa."
    | Saved(count: nat, category: string)  // 200, "Filtered {count} products for category {category} ..."

  function Status(r: Response): int {
    match r
    case CategoryRequired => 400
    case FetchError => 500
    case _ => 200
  }

  function KeptItems(category: string, items: seq<SweepItem>): (r: seq<SweepItem>)
    ensures |r| <= |items|
    ensures forall p :: p in r <==> p in items && Kept(ScanCategoryConfig, category, p)
  {
    Seqs.Filter((p: SweepItem) => Kept(ScanCategoryConfig, category, p), items)
  }

  /** The products a request reaches the upsert loop with: none unless the fetch gave a nonempty list. */
  function Writes(category: string, fetched: Fetched): (w: seq<SweepItem>)
    ensures w != [] ==> category != "" && fetched.Fetched? && fetched.products.Some?
    ensures forall p :: p in w ==> Kept(ScanCategoryConfig, category, p) && p in fetched.products.value
    ensures category != "" && fetched.Fetched? && fetched.products.Some? ==>
      w == KeptItems(category, fetched.products.value) &&
      forall p :: p in fetched.products.value && Kept(ScanCategoryConfig, category, p) ==> p in w
  {
    if category == "" || fetched.FetchFailed? || fetched.products.None? then []
    else KeptItems(category, fetched.products.value)
  }

  function Respond(category: string, fetched: Fetched): (r: Response)
    ensures category == "" <==> Status(r) == 400
    ensures Status(r) == 500 <==> category != "" && fetched.FetchFailed?
    ensures r.Saved? <==> category != "" && fetched.Fetched? && fetched.products.Some? && fetched.products.value != []
    ensures r.Saved? ==> r.category == category && r.count == |Writes(category, fetched)| <= |fetched.products.value|
  {
    if category == "" then CategoryRequired
    else if fetched.FetchFailed? then FetchError
    else if fetched.products.None? || fetched.products.value == [] then NoProducts
    else Saved(|KeptItems(category, fetched.products.value)|, category)
  }

  /** The upserts, one per item in order, keyed by ASIN. */
  function Upserted(store: map<string, SweptRecord>, category: string, items: seq<SweepItem>, now: int): map<string, SweptRecord> {
    if items == [] then store
    else Upserted(store, category, items[..|items| - 1], now)[items[|items| - 1].asin := SweptRecord(items[|items| - 1], category, now)]
  }

  /** `i` is the last position of ASIN `a` in `items`. */
  predicate LastAt(items: seq<SweepItem>, a: string, i: int) {
    0 <= i < |items| && items[i].asin == a && forall j :: i < j < |items| ==> items[j].asin != a
  }

  /** After the loop there is exactly one record per ASIN seen: the last product with that ASIN,
      stamped with the category and the scan time; records of other ASINs are untouched. */
  lemma {:induction false} UpsertedContents(store: map<string, SweptRecord>, category: string, items: seq<SweepItem>, now: int)
    ensures Upserted(store, category, items, now).Keys == store.Keys + set p | p in items :: p.asin
    ensures forall a :: a in store && (forall p :: p in items ==> p.asin != a) ==> Upserted(store, category, items, now)[a] == store[a]
    ensures forall a, i :: LastAt(items, a, i) ==> Upserted(store, category, items, now)[a] == SweptRecord(items[i], category, now)
  {
    if items != [] {
      var init := items[..|items| - 1];
      var last := items[|items| - 1];
      UpsertedContents(store, category, init, now);
      assert items == init + [last];
      assert (set p | p in items :: p.asin) == (set p | p in init :: p.asin) + {last.asin};
      forall a, i | LastAt(items, a, i)
        ensures Upserted(store, category, items, now)[a] == SweptRecord(items[i], category, now)
      {
        if i < |items| - 1 {
          assert LastAt(init, a, i);
        }
      }
    }
  }

  /** Running the same scan again at the same time changes nothing. */
  lemma RescanIsIdempotent(store: map<string, SweptRecord>, category: string, items: seq<SweepItem>, now: int)
    ensures Upserted(Upserted(store, category, items, now), category, items, now) == Upserted(store, category, items, now)
  {
    var once := Upserted(store, category, items, now);
    var twice := Upserted(once, category, items, now);
    UpsertedContents(store, category, items, now);
    UpsertedContents(once, category, items, now);
    forall a | a in once
      ensures twice[a] == once[a]
    {
      if exists p :: p in items && p.asin == a {
        var k :| 0 <= k < |items| && items[k].asin == a;
        var i := LastIndex(items, a, k);
        assert twice[a] == SweptRecord(items[i], category, now) == once[a];
      }
    }
  }

  /** The last position of `a`, found from a known one. */
  function LastIndex(items: seq<SweepItem>, a: string, k: nat): (i: int)
    requires k < |items| && items[k].asin == a
    ensures LastAt(items, a, i)
    decreases |items| - k
  {
    if forall j :: k < j < |items| ==> items[j].asin != a then k
    else
      var j :| k < j < |items| && items[j].asin == a;
      LastIndex(items, a, j)
  }

  class CategoryStore {
    var products: map<string, SweptRecord>   // keyed by asin

    constructor ()
      ensures products == map[]
    {
      products := map[];
    }

    /** pages/api/scanCategory.js:19-66 */
    method Handle(category: string, fetched: Fetched, now: int) returns (r: Response)
      modifies this
      ensures r == Respond(category, fetched)
      ensures products == Upserted(old(products), category, Writes(category, fetched), now)
    {
      if category == "" {
        return CategoryRequired;
      }
      if fetched.FetchFailed? {
        return FetchError;
      }
      if fetched.products.None? || |fetched.products.value| == 0 {
        return NoProducts;
      }
      var filtered := KeptItems(category, fetched.products.value);
      for i := 0 to |filtered|
        invariant products == Upserted(old(products), category, filtered[..i], now)
      {
        var p := filtered[i];
        products := products[p.asin := SweptRecord(p, category, now)];
        assert filtered[..i + 1][..i] == filtered[..i];
      }
      assert filtered[..|filtered|] == filtered;
      r := Saved(|filtered|, category);
    }
  }
}
