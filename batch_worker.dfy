/**
 * The bulk refresh job of lib/worker.js: the job's ASIN list is cut into consecutive
 * batches of at most 100; each batch is requested up to three times, waiting 1.2 s after
 * a success and 1.2 s times the attempt number after each failure; a successful response
 * upserts every returned product by ASIN, and a batch that fails three times is dropped
 * without error. The `try` covers the upserts too: an upsert that throws ends the attempt
 * like a failed request, and the products already upserted in it stay written.
 *
 * What one attempt meets is the oracle `fetch(batch, attempt)`: a request that throws or a
 * response without `products`, or the returned products together with the index of the
 * upsert that throws, if one does.
 */
module BatchWorker {
  import opened Wrappers

  const MaxBatch := 100
  const ThrottleMs := 1200
  const MaxRetry := 3

  /** A returned product: its ASIN and its other fields as name/value pairs. */
  datatype ApiProduct = ApiProduct(asin: string, fields: map<string, string>)

  /** One attempt: no usable response, or the returned products and the upsert that throws. */
  datatype Reply = NoReply | Reply(products: seq<ApiProduct>, failingUpsert: Option<nat>)

  type Fetch = (seq<string>, nat) -> Reply

  /** The attempt reaches its `break`: a response came back and none of its upserts threw. */
  predicate Succeeds(reply: Reply) {
    reply.Reply? && (reply.failingUpsert.None? || reply.failingUpsert.value >= |reply.products|)
  }

  /** The products upserted during the attempt: all of them, or those before the one that throws. */
  function Written(reply: Reply): (ps: seq<ApiProduct>)
    ensures Succeeds(reply) ==> ps == reply.products
    ensures reply.NoReply? ==> ps == []
    ensures reply.Reply? && !Succeeds(reply) ==>
      ps == reply.products[..reply.failingUpsert.value] && |ps| < |reply.products|
  {
    match reply
    case NoReply => []
    case Reply(ps, failing) => if failing.Some? && failing.value < |ps| then ps[..failing.value] else ps
  }

  /** `asins.slice(i, i + MAX_BATCH)` */
  function Slice(asins: seq<string>, i: nat): (b: seq<string>)
    requires i < |asins|
    ensures 0 < |b| <= MaxBatch
    ensures b == asins[i..if i + MaxBatch < |asins| then i + MaxBatch else |asins|]
  {
    asins[i..if i + MaxBatch < |asins| then i + MaxBatch else |asins|]
  }

  /** The batches from offset `i` on. */
  function Batches(asins: seq<string>, i: nat): seq<seq<string>>
    decreases |asins| - i
  {
    if i >= |asins| then [] else [Slice(asins, i)] + Batches(asins, i + MaxBatch)
  }

  function Flatten(bs: seq<seq<string>>): seq<string> {
    if bs == [] then [] else bs[0] + Flatten(bs[1..])
  }

  /** The batches are nonempty, hold at most 100 ASINs each, and put back together give the list. */
  lemma {:induction false} BatchesPartition(asins: seq<string>, i: nat)
    requires i <= |asins|
    ensures Flatten(Batches(asins, i)) == asins[i..]
    ensures forall b :: b in Batches(asins, i) ==> 0 < |b| <= MaxBatch
    decreases |asins| - i
  {
    if i < |asins| {
      var j := if i + MaxBatch < |asins| then i + MaxBatch else |asins|;
      BatchesPartition(asins, j);
      if j < |asins| {
        assert Batches(asins, i) == [Slice(asins, i)] + Batches(asins, j);
      } else {
        assert Batches(asins, j) == [];
      }
      assert asins[i..] == asins[i..j] + asins[j..];
    }
  }

  /** `$set: p` with upsert on `{ asin: p.asin }`: the returned fields overwrite the stored ones. */
  function Upsert(store: map<string, ApiProduct>, p: ApiProduct): map<string, ApiProduct> {
    store[p.asin := if p.asin in store then ApiProduct(p.asin, store[p.asin].fields + p.fields) else p]
  }

  function UpsertAll(store: map<string, ApiProduct>, ps: seq<ApiProduct>): map<string, ApiProduct> {
    if ps == [] then store else Upsert(UpsertAll(store, ps[..|ps| - 1]), ps[|ps| - 1])
  }

  /** After the upserts every returned ASIN is stored, and nothing else changes. */
  lemma {:induction false} UpsertAllKeys(store: map<string, ApiProduct>, ps: seq<ApiProduct>)
    ensures UpsertAll(store, ps).Keys == store.Keys + set p | p in ps :: p.asin
    ensures forall a :: a in store && (forall p :: p in ps ==> p.asin != a) ==> UpsertAll(store, ps)[a] == store[a]
  {
    if ps != [] {
      var init := ps[..|ps| - 1];
      UpsertAllKeys(store, init);
      assert ps == init + [ps[|ps| - 1]];
      assert (set p | p in ps :: p.asin) == (set p | p in init :: p.asin) + {ps[|ps| - 1].asin};
    }
  }

  /** Upserting two lists one after the other is upserting their concatenation. */
  lemma {:induction false} UpsertAllAppend(store: map<string, ApiProduct>, a: seq<ApiProduct>, b: seq<ApiProduct>)
    ensures UpsertAll(UpsertAll(store, a), b) == UpsertAll(store, a + b)
  {
    if b != [] {
      UpsertAllAppend(store, a, b[..|b| - 1]);
      assert (a + b)[..|a + b| - 1] == a + b[..|b| - 1];
    } else {
      assert a + b == a;
    }
  }

  /** What retrying one batch from `attempt` on does: the products upserted, in order (the
      store afterwards is their `UpsertAll`), the waits and the requests. */
  datatype BatchRun = BatchRun(writes: seq<ApiProduct>, waits: seq<int>, requests: seq<seq<string>>)

  function RetryFrom(batch: seq<string>, fetch: Fetch, attempt: nat): BatchRun
    decreases MaxRetry - attempt
  {
    if attempt >= MaxRetry then BatchRun([], [], [])
    else
      var reply := fetch(batch, attempt);
      if Succeeds(reply) then BatchRun(Written(reply), [ThrottleMs], [batch])
      else
        var r := RetryFrom(batch, fetch, attempt + 1);
        BatchRun(Written(reply) + r.writes, [ThrottleMs * (attempt + 1)] + r.waits, [batch] + r.requests)
  }

  /** The whole job from offset `i` on. */
  function RunFrom(asins: seq<string>, fetch: Fetch, i: nat): BatchRun
    decreases |asins| - i
  {
    if i >= |asins| then BatchRun([], [], [])
    else
      Then(RetryFrom(Slice(asins, i), fetch, 0), RunFrom(asins, fetch, i + MaxBatch))
  }

  /** One run followed by another. */
  function Then(a: BatchRun, b: BatchRun): BatchRun {
    BatchRun(a.writes + b.writes, a.waits + b.waits, a.requests + b.requests)
  }

  lemma ThenAssoc(a: BatchRun, b: BatchRun, c: BatchRun)
    ensures Then(Then(a, b), c) == Then(a, Then(b, c))
  {
  }

  /** The linear backoff `THROTTLE_MS * k` after failures k = lo+1 .. hi. */
  function Backoff(lo: nat, hi: nat): (w: seq<int>)
    requires lo <= hi
    ensures |w| == hi - lo
    ensures forall k :: 0 <= k < |w| ==> w[k] == ThrottleMs * (lo + k + 1)
    decreases hi - lo
  {
    if lo == hi then [] else [ThrottleMs * (lo + 1)] + Backoff(lo + 1, hi)
  }

  /** One more failure appends its wait. */
  lemma BackoffSnoc(lo: nat, hi: nat)
    requires lo <= hi
    ensures Backoff(lo, hi + 1) == Backoff(lo, hi) + [ThrottleMs * (hi + 1)]
  {
  }

  /** `n` requests of the same batch. */
  function Repeat(batch: seq<string>, n: nat): (r: seq<seq<string>>)
    ensures |r| == n && forall i :: 0 <= i < n ==> r[i] == batch
  {
    if n == 0 then [] else Repeat(batch, n - 1) + [batch]
  }

  lemma {:induction false} RepeatCons(batch: seq<string>, n: nat)
    ensures [batch] + Repeat(batch, n) == Repeat(batch, n + 1)
  {
    if n > 0 {
      RepeatCons(batch, n - 1);
      assert [batch] + (Repeat(batch, n - 1) + [batch]) == ([batch] + Repeat(batch, n - 1)) + [batch];
    }
  }

  /** The products upserted by the failed attempts lo .. hi-1, in order. */
  function PartialWrites(batch: seq<string>, fetch: Fetch, lo: nat, hi: nat): seq<ApiProduct>
    requires lo <= hi
    decreases hi - lo
  {
    if lo == hi then [] else Written(fetch(batch, lo)) + PartialWrites(batch, fetch, lo + 1, hi)
  }

  /** When no attempt gets a response, nothing is written. */
  lemma {:induction false} NoReplyWritesNothing(batch: seq<string>, fetch: Fetch, lo: nat, hi: nat)
    requires lo <= hi
    requires forall k :: lo <= k < hi ==> fetch(batch, k).NoReply?
    ensures PartialWrites(batch, fetch, lo, hi) == []
    decreases hi - lo
  {
    if lo < hi {
      NoReplyWritesNothing(batch, fetch, lo + 1, hi);
    }
  }

  /** One more failed attempt appends what it wrote. */
  lemma {:induction false} PartialWritesSnoc(batch: seq<string>, fetch: Fetch, lo: nat, hi: nat)
    requires lo <= hi
    ensures PartialWrites(batch, fetch, lo, hi + 1) == PartialWrites(batch, fetch, lo, hi) + Written(fetch(batch, hi))
    decreases hi - lo
  {
    if lo < hi {
      PartialWritesSnoc(batch, fetch, lo + 1, hi);
      assert Written(fetch(batch, lo)) + (PartialWrites(batch, fetch, lo + 1, hi) + Written(fetch(batch, hi)))
        == (Written(fetch(batch, lo)) + PartialWrites(batch, fetch, lo + 1, hi)) + Written(fetch(batch, hi));
    } else {
      assert PartialWrites(batch, fetch, lo, hi + 1) == Written(fetch(batch, hi)) + [];
    }
  }

  /** Every attempt lo .. hi-1 failed. */
  predicate AllFail(batch: seq<string>, fetch: Fetch, lo: nat, hi: nat) {
    forall k :: lo <= k < hi ==> !Succeeds(fetch(batch, k))
  }

  lemma AllFailSnoc(batch: seq<string>, fetch: Fetch, lo: nat, hi: nat)
    requires AllFail(batch, fetch, lo, hi) && !Succeeds(fetch(batch, hi))
    ensures AllFail(batch, fetch, lo, hi + 1)
  {
  }

  /** A batch is requested at least once and at most three times, and every request is for that batch. */
  lemma {:induction false} RetryRequests(batch: seq<string>, fetch: Fetch, attempt: nat)
    requires attempt < MaxRetry
    ensures var r := RetryFrom(batch, fetch, attempt);
      1 <= |r.requests| <= MaxRetry - attempt && forall q :: q in r.requests ==> q == batch
    decreases MaxRetry - attempt
  {
    if !Succeeds(fetch(batch, attempt)) && attempt + 1 < MaxRetry {
      RetryRequests(batch, fetch, attempt + 1);
    }
  }

  /** A batch whose attempts all fail, some of them in an upsert, is dropped with the upserts
      those attempts made still written, after waits of THROTTLE_MS · k for the k-th failure. */
  lemma {:induction false} RetryAllFailKeepsPartialWrites(batch: seq<string>, fetch: Fetch, attempt: nat)
    requires attempt <= MaxRetry
    requires forall k :: attempt <= k < MaxRetry ==> !Succeeds(fetch(batch, k))
    ensures var r := RetryFrom(batch, fetch, attempt);
      r.writes == PartialWrites(batch, fetch, attempt, MaxRetry)
      && r.waits == Backoff(attempt, MaxRetry) && r.requests == Repeat(batch, MaxRetry - attempt)
    decreases MaxRetry - attempt
  {
    if attempt < MaxRetry {
      RetryAllFailKeepsPartialWrites(batch, fetch, attempt + 1);
    }
  }

  /** Three failed requests leave the store untouched, after the same linear waits. */
  lemma RetryAllFail(store: map<string, ApiProduct>, batch: seq<string>, fetch: Fetch, attempt: nat)
    requires attempt <= MaxRetry
    requires forall k :: attempt <= k < MaxRetry ==> fetch(batch, k).NoReply?
    ensures var r := RetryFrom(batch, fetch, attempt);
      UpsertAll(store, r.writes) == store && r.waits == Backoff(attempt, MaxRetry) && |r.requests| == MaxRetry - attempt
  {
    RetryAllFailKeepsPartialWrites(batch, fetch, attempt);
    NoReplyWritesNothing(batch, fetch, attempt, MaxRetry);
  }

  /** The first successful attempt, `j`, ends the retries: its products are upserted after
      whatever the failed attempts before it wrote, the failures waited THROTTLE_MS · k each,
      and the success waits THROTTLE_MS once. */
  lemma RetrySucceedsAfterFailures(batch: seq<string>, fetch: Fetch, attempt: nat, j: nat)
    requires attempt <= j < MaxRetry && Succeeds(fetch(batch, j))
    requires forall k :: attempt <= k < j ==> !Succeeds(fetch(batch, k))
    ensures var r := RetryFrom(batch, fetch, attempt);
      r.writes == PartialWrites(batch, fetch, attempt, j) + fetch(batch, j).products
      && r.waits == Backoff(attempt, j) + [ThrottleMs]
      && r.requests == Repeat(batch, j - attempt + 1)
  {
    SucceedsWrites(batch, fetch, attempt, j);
    SucceedsWaits(batch, fetch, attempt, j);
    SucceedsRequests(batch, fetch, attempt, j);
  }

  lemma {:induction false} SucceedsWrites(batch: seq<string>, fetch: Fetch, attempt: nat, j: nat)
    requires attempt <= j < MaxRetry && Succeeds(fetch(batch, j))
    requires forall k :: attempt <= k < j ==> !Succeeds(fetch(batch, k))
    ensures RetryFrom(batch, fetch, attempt).writes == PartialWrites(batch, fetch, attempt, j) + fetch(batch, j).products
    decreases j - attempt
  {
    var ps := fetch(batch, j).products;
    if attempt == j {
      assert PartialWrites(batch, fetch, attempt, j) + ps == ps;
    } else {
      SucceedsWrites(batch, fetch, attempt + 1, j);
      var written := Written(fetch(batch, attempt));
      assert written + (PartialWrites(batch, fetch, attempt + 1, j) + ps) == PartialWrites(batch, fetch, attempt, j) + ps;
    }
  }

  lemma {:induction false} SucceedsWaits(batch: seq<string>, fetch: Fetch, attempt: nat, j: nat)
    requires attempt <= j < MaxRetry && Succeeds(fetch(batch, j))
    requires forall k :: attempt <= k < j ==> !Succeeds(fetch(batch, k))
    ensures RetryFrom(batch, fetch, attempt).waits == Backoff(attempt, j) + [ThrottleMs]
    decreases j - attempt
  {
    if attempt < j {
      SucceedsWaits(batch, fetch, attempt + 1, j);
      assert Backoff(attempt, j) + [ThrottleMs] == [ThrottleMs * (attempt + 1)] + (Backoff(attempt + 1, j) + [ThrottleMs]);
    }
  }

  lemma {:induction false} SucceedsRequests(batch: seq<string>, fetch: Fetch, attempt: nat, j: nat)
    requires attempt <= j < MaxRetry && Succeeds(fetch(batch, j))
    requires forall k :: attempt <= k < j ==> !Succeeds(fetch(batch, k))
    ensures RetryFrom(batch, fetch, attempt).requests == Repeat(batch, j - attempt + 1)
    decreases j - attempt
  {
    if attempt < j {
      SucceedsRequests(batch, fetch, attempt + 1, j);
      RepeatCons(batch, j - attempt);
    } else {
      assert Repeat(batch, 1) == [batch];
    }
  }


  /** When the requests before the first successful attempt all failed, only its products are
      upserted, with the same waits. */
  lemma RetrySucceedsAt(store: map<string, ApiProduct>, batch: seq<string>, fetch: Fetch, attempt: nat, j: nat)
    requires attempt <= j < MaxRetry && Succeeds(fetch(batch, j))
    requires forall k :: attempt <= k < j ==> fetch(batch, k).NoReply?
    ensures var r := RetryFrom(batch, fetch, attempt);
      UpsertAll(store, r.writes) == UpsertAll(store, fetch(batch, j).products)
      && r.waits == Backoff(attempt, j) + [ThrottleMs]
      && |r.requests| == j - attempt + 1
  {
    RetrySucceedsAfterFailures(batch, fetch, attempt, j);
    NoReplyWritesNothing(batch, fetch, attempt, j);
    assert PartialWrites(batch, fetch, attempt, j) + fetch(batch, j).products == fetch(batch, j).products;
  }

  /** The whole job makes at most three requests per batch. */
  lemma {:induction false} RequestsPerJob(asins: seq<string>, fetch: Fetch, i: nat)
    ensures |RunFrom(asins, fetch, i).requests| <= MaxRetry * |Batches(asins, i)|
    decreases |asins| - i
  {
    if i < |asins| {
      RetryRequests(Slice(asins, i), fetch, 0);
      RequestsPerJob(asins, fetch, i + MaxBatch);
    }
  }

  /** Running `a` and then `b` from one worker state gives the state of running `Then(a, b)`. */
  lemma ThenState(
    p0: map<string, ApiProduct>, w0: seq<int>, r0: seq<seq<string>>, a: BatchRun, b: BatchRun,
    p1: map<string, ApiProduct>, w1: seq<int>, r1: seq<seq<string>>,
    p2: map<string, ApiProduct>, w2: seq<int>, r2: seq<seq<string>>)
    requires p1 == UpsertAll(p0, a.writes) && w1 == w0 + a.waits && r1 == r0 + a.requests
    requires p2 == UpsertAll(p1, b.writes) && w2 == w1 + b.waits && r2 == r1 + b.requests
    ensures p2 == UpsertAll(p0, Then(a, b).writes) && w2 == w0 + Then(a, b).waits && r2 == r0 + Then(a, b).requests
  {
    UpsertAllAppend(p0, a.writes, b.writes);
    assert (w0 + a.waits) + b.waits == w0 + (a.waits + b.waits);
    assert (r0 + a.requests) + b.requests == r0 + (a.requests + b.requests);
  }

  /** The worker state after attempts 0 .. n-1 of a batch all failed, starting from (p0, w0, r0). */
  predicate AfterFailures(
    batch: seq<string>, fetch: Fetch, n: nat,
    p0: map<string, ApiProduct>, w0: seq<int>, r0: seq<seq<string>>,
    p: map<string, ApiProduct>, w: seq<int>, r: seq<seq<string>>)
  {
    && AllFail(batch, fetch, 0, n)
    && p == UpsertAll(p0, PartialWrites(batch, fetch, 0, n))
    && w == w0 + Backoff(0, n)
    && r == r0 + Repeat(batch, n)
  }

  /** One more failed attempt: its partial writes, one more request and the next back-off. */
  lemma FailureStep(
    batch: seq<string>, fetch: Fetch, n: nat,
    p0: map<string, ApiProduct>, w0: seq<int>, r0: seq<seq<string>>,
    p: map<string, ApiProduct>, w: seq<int>, r: seq<seq<string>>)
    requires AfterFailures(batch, fetch, n, p0, w0, r0, p, w, r) && !Succeeds(fetch(batch, n))
    ensures AfterFailures(batch, fetch, n + 1, p0, w0, r0,
      UpsertAll(p, Written(fetch(batch, n))), w + [ThrottleMs * (n + 1)], r + [batch])
  {
    AllFailSnoc(batch, fetch, 0, n);
    PartialWritesSnoc(batch, fetch, 0, n);
    UpsertAllAppend(p0, PartialWrites(batch, fetch, 0, n), Written(fetch(batch, n)));
    BackoffSnoc(0, n);
  }

  /** A success after the failures completes the retry specification. */
  lemma SuccessState(
    batch: seq<string>, fetch: Fetch, n: nat,
    p0: map<string, ApiProduct>, w0: seq<int>, r0: seq<seq<string>>,
    p: map<string, ApiProduct>, w: seq<int>, r: seq<seq<string>>)
    requires n < MaxRetry && AfterFailures(batch, fetch, n, p0, w0, r0, p, w, r) && Succeeds(fetch(batch, n))
    ensures var run := RetryFrom(batch, fetch, 0);
      UpsertAll(p, Written(fetch(batch, n))) == UpsertAll(p0, run.writes)
      && w + [ThrottleMs] == w0 + run.waits && r + [batch] == r0 + run.requests
  {
    RetrySucceedsAfterFailures(batch, fetch, 0, n);
    UpsertAllAppend(p0, PartialWrites(batch, fetch, 0, n), Written(fetch(batch, n)));
  }

  /** Three failures complete the retry specification. */
  lemma AllFailedState(
    batch: seq<string>, fetch: Fetch,
    p0: map<string, ApiProduct>, w0: seq<int>, r0: seq<seq<string>>,
    p: map<string, ApiProduct>, w: seq<int>, r: seq<seq<string>>)
    requires AfterFailures(batch, fetch, MaxRetry, p0, w0, r0, p, w, r)
    ensures var run := RetryFrom(batch, fetch, 0);
      p == UpsertAll(p0, run.writes) && w == w0 + run.waits && r == r0 + run.requests
  {
    RetryAllFailKeepsPartialWrites(batch, fetch, 0);
  }

  class Worker {
    var products: map<string, ApiProduct>   // keyed by asin
    var waits: seq<int>                     // milliseconds waited, in order
    var requests: seq<seq<string>>          // the batch of each catalog request, in order

    constructor ()
      ensures products == map[] && waits == [] && requests == []
    {
      products := map[];
      waits := [];
      requests := [];
    }

    /** lib/worker.js:36-69 */
    method Process(asins: seq<string>, fetch: Fetch)
      modifies this
      ensures var r := RunFrom(asins, fetch, 0);
        products == UpsertAll(old(products), r.writes) && waits == old(waits) + r.waits && requests == old(requests) + r.requests
    {
      ghost var total := RunFrom(asins, fetch, 0);
      ghost var done := BatchRun([], [], []);
      ghost var rest := total;
      var i := 0;
      while i < |asins|
        invariant rest == RunFrom(asins, fetch, i)
        invariant Then(done, rest) == total
        invariant products == UpsertAll(old(products), done.writes)
        invariant waits == old(waits) + done.waits && requests == old(requests) + done.requests
        decreases |asins| - i
      {
        var batch := asins[i..if i + MaxBatch < |asins| then i + MaxBatch else |asins|];
        ghost var one := RetryFrom(batch, fetch, 0);
        ghost var next := RunFrom(asins, fetch, i + MaxBatch);
        assert rest == Then(one, next) by {
          assert batch == Slice(asins, i);
        }
        ghost var products0, waits0, requests0 := products, waits, requests;
        ProcessBatch(batch, fetch);
        ThenState(old(products), old(waits), old(requests), done, one, products0, waits0, requests0, products, waits, requests);
        ThenAssoc(done, one, next);
        done := Then(done, one);
        rest := next;
        i := i + MaxBatch;
      }
      assert done == total by {
        assert rest == BatchRun([], [], []);
        assert done.writes + [] == done.writes && done.waits + [] == done.waits && done.requests + [] == done.requests;
      }
    }

    /** lib/worker.js:42-66: up to MAX_RETRY attempts for one batch. */
    method ProcessBatch(batch: seq<string>, fetch: Fetch)
      modifies this
      ensures var r := RetryFrom(batch, fetch, 0);
        products == UpsertAll(old(products), r.writes) && waits == old(waits) + r.waits && requests == old(requests) + r.requests
    {
      var attempt := 0;
      while attempt < MaxRetry
        invariant attempt <= MaxRetry
        invariant AfterFailures(batch, fetch, attempt, old(products), old(waits), old(requests), products, waits, requests)
        decreases MaxRetry - attempt
      {
        ghost var p, w, r := products, waits, requests;
        var ok := Attempt(batch, fetch, attempt);
        if ok {
          waits := waits + [ThrottleMs];
          SuccessState(batch, fetch, attempt, old(products), old(waits), old(requests), p, w, r);
          return;
        }
        FailureStep(batch, fetch, attempt, old(products), old(waits), old(requests), p, w, r);
        attempt := attempt + 1;
        waits := waits + [ThrottleMs * attempt];
      }
      AllFailedState(batch, fetch, old(products), old(waits), old(requests), products, waits, requests);
    }

    /** lib/worker.js:45-58: one attempt, a catalog request followed by the upserts of
        what it returned; `ok` says the attempt left the retry loop. */
    method Attempt(batch: seq<string>, fetch: Fetch, attempt: nat) returns (ok: bool)
      modifies this
      ensures products == UpsertAll(old(products), Written(fetch(batch, attempt)))
      ensures ok == Succeeds(fetch(batch, attempt))
      ensures waits == old(waits) && requests == old(requests) + [batch]
    {
      requests := requests + [batch];
      var reply := fetch(batch, attempt);
      ok := false;
      if reply.Reply? {
        ok := UpsertProducts(reply.products, reply.failingUpsert);
      }
    }

    /** lib/worker.js:53-55: one upsert per returned product, in order, until the one at
        `failing` throws; `ok` says that none did. */
    method UpsertProducts(ps: seq<ApiProduct>, failing: Option<nat>) returns (ok: bool)
      modifies this
      ensures products == UpsertAll(old(products), Written(Reply(ps, failing)))
      ensures ok == Succeeds(Reply(ps, failing))
      ensures waits == old(waits) && requests == old(requests)
    {
      for j := 0 to |ps|
        invariant products == UpsertAll(old(products), ps[..j])
        invariant failing.None? || failing.value >= j
        invariant waits == old(waits) && requests == old(requests)
      {
        if failing == Some(j) {
          return false;
        }
        var p := ps[j];
        products := products[p.asin := if p.asin in products then ApiProduct(p.asin, products[p.asin].fields + p.fields) else p];
        assert ps[..j + 1][..j] == ps[..j];
      }
      assert ps[..|ps|] == ps;
      return true;
    }
  }
}
