/**
 * Properties of the cache-aside protocol over sequences of requests: the
 * coherence invariant every handler keeps, read-after-write freshness, the
 * store-only behaviour when the cache is down, and the staleness window that
 * a failed invalidation opens.
 */
module CacheAsideProperties {
  import opened Wrappers
  import opened Schemas
  import opened ProductRepository
  import opened CacheService
  import opened ProductsApi

  /** Every product the cache would serve is the one the store holds under that id. */
  ghost predicate Coherent(s: System) {
    forall id {:trigger Lookup(s.cache, id)} ::
      Lookup(s.cache, id).Some? ==> id in s.rows && s.rows[id] == Lookup(s.cache, id).value
  }

  /** The rows are keyed by their ids and satisfy the create constraints. */
  predicate WellFormedStore(rows: map<string, Product>) {
    KeysMatchIds(rows) && AllFieldsValid(rows)
  }

  /** What a read answers with no cache in front of the store. */
  function StoreAnswer(rows: map<string, Product>, productId: string): Response {
    if productId in rows then Ok(rows[productId]) else NotFound
  }

  // ---------------------------------------------------------------------------
  // Coherence is kept by every request and by expiry

  lemma PostKeepsCoherent(s: System, payload: ProductCreate, freshId: string)
    requires Coherent(s)
    ensures Coherent(HandlePost(s, payload, freshId).after)
  {
    var t := HandlePost(s, payload, freshId).after;
    forall id | Lookup(t.cache, id).Some?
      ensures id in t.rows && t.rows[id] == Lookup(t.cache, id).value
    {
      LookupAfterInvalidate(s.cache, freshId, id);
      assert Lookup(s.cache, id).Some?;
    }
  }

  lemma GetKeepsCoherent(s: System, productId: string, ttlSeconds: int)
    requires Coherent(s) && KeysMatchIds(s.rows)
    ensures Coherent(HandleGet(s, productId, ttlSeconds).after)
  {
    var t := HandleGet(s, productId, ttlSeconds).after;
    if Lookup(s.cache, productId).None? && productId in s.rows {
      var p := s.rows[productId];
      forall id | Lookup(t.cache, id).Some?
        ensures id in t.rows && t.rows[id] == Lookup(t.cache, id).value
      {
        LookupAfterStore(s.cache, p, ttlSeconds, id);
        if id != p.id {
          assert Lookup(s.cache, id).Some?;
        }
      }
    }
  }

  /** Stated for any validation outcome, so it covers PUT as written and as corrected. */
  lemma PutKeepsCoherent(s: System, productId: string, payload: ProductUpdate, accepted: bool)
    requires Coherent(s)
    ensures Coherent(PutAfterValidation(s, productId, payload, accepted).after)
  {
    var o := PutAfterValidation(s, productId, payload, accepted);
    if o.response.Ok? {
      var t := o.after;
      forall id | Lookup(t.cache, id).Some?
        ensures id in t.rows && t.rows[id] == Lookup(t.cache, id).value
      {
        LookupAfterInvalidate(s.cache, productId, id);
        assert Lookup(s.cache, id).Some?;
      }
    }
  }

  lemma DeleteKeepsCoherent(s: System, productId: string)
    requires Coherent(s)
    ensures Coherent(HandleDelete(s, productId).after)
  {
    var o := HandleDelete(s, productId);
    if o.response.NoContent? {
      var t := o.after;
      forall id | Lookup(t.cache, id).Some?
        ensures id in t.rows && t.rows[id] == Lookup(t.cache, id).value
      {
        LookupAfterInvalidate(s.cache, productId, id);
        assert Lookup(s.cache, id).Some?;
      }
    }
  }

  lemma ExpiryKeepsCoherent(s: System, productId: string)
    requires Coherent(s)
    ensures Coherent(s.(cache := Expired(s.cache, productId)))
  {
    var t := s.(cache := Expired(s.cache, productId));
    forall id | Lookup(t.cache, id).Some?
      ensures id in t.rows && t.rows[id] == Lookup(t.cache, id).value
    {
      LookupAfterExpire(s.cache, productId, id);
    }
  }

  /** While the cache is coherent, a read answers exactly what the store alone would. */
  lemma CoherentGetServesStore(s: System, productId: string, ttlSeconds: int)
    requires Coherent(s)
    ensures HandleGet(s, productId, ttlSeconds).response == StoreAnswer(s.rows, productId)
  {
  }

  // ---------------------------------------------------------------------------
  // Read-after-write: these need no coherence, as the write's own invalidation
  // (or the cache being down) forces the next read of that id to the store

  lemma ReadAfterPost(s: System, payload: ProductCreate, freshId: string, ttlSeconds: int)
    requires freshId !in s.rows
    ensures var o := HandlePost(s, payload, freshId);
            o.response.Created? ==> HandleGet(o.after, freshId, ttlSeconds).response == Ok(o.response.product)
  {
  }

  lemma ReadAfterPut(s: System, productId: string, payload: ProductUpdate, accepted: bool, ttlSeconds: int)
    ensures var o := PutAfterValidation(s, productId, payload, accepted);
            o.response.Ok? ==> HandleGet(o.after, productId, ttlSeconds).response == o.response
  {
  }

  lemma ReadAfterDelete(s: System, productId: string, ttlSeconds: int)
    ensures var o := HandleDelete(s, productId);
            o.response.NoContent? ==> HandleGet(o.after, productId, ttlSeconds).response == NotFound
  {
  }

  /** A hit answers with the cached product whatever the store holds, even when the
      row was removed behind the API's back. */
  lemma CacheHitIgnoresStore(s: System, productId: string, ttlSeconds: int, otherRows: map<string, Product>)
    requires Lookup(s.cache, productId).Some?
    ensures HandleGet(s, productId, ttlSeconds) == Outcome(Ok(Lookup(s.cache, productId).value), s)
    ensures HandleGet(s.(rows := otherRows), productId, ttlSeconds).response
         == HandleGet(s, productId, ttlSeconds).response
  {
  }

  /** With the cache up, a miss on a stored id populates the cache, and the next
      read hits with the same body without reading the store. */
  lemma MissThenHit(s: System, productId: string, ttlSeconds: int, otherRows: map<string, Product>)
    requires s.cache.reachable && AcceptedExpiry(ttlSeconds) && KeysMatchIds(s.rows)
    requires Lookup(s.cache, productId).None? && productId in s.rows
    ensures var first := HandleGet(s, productId, ttlSeconds);
            && first.response == Ok(s.rows[productId])
            && Lookup(first.after.cache, productId) == Some(s.rows[productId])
            && HandleGet(first.after, productId, ttlSeconds) == Outcome(first.response, first.after)
            && HandleGet(first.after.(rows := otherRows), productId, ttlSeconds).response == first.response
  {
  }

  // ---------------------------------------------------------------------------
  // Fail-soft: a cache that is down, or holds anything at all, never changes
  // what a write answers, and a read falls back to the store

  /** The server refuses an expiry that is not positive or too large, so with such a
      setting a read never populates the cache and answers from the store. */
  lemma RefusedExpiryNeverCaches(s: System, productId: string, ttlSeconds: int)
    requires !AcceptedExpiry(ttlSeconds) && Lookup(s.cache, productId).None?
    ensures HandleGet(s, productId, ttlSeconds) == Outcome(StoreAnswer(s.rows, productId), s)
  {
  }

  lemma UnreachableCacheServesStore(s: System, productId: string, ttlSeconds: int)
    requires !s.cache.reachable
    ensures HandleGet(s, productId, ttlSeconds) == Outcome(StoreAnswer(s.rows, productId), s)
  {
  }

  /** The answers and the store effects of writes do not depend on the cache. */
  lemma WritesIgnoreCache(s: System, other: CacheState, payload: ProductCreate, update: ProductUpdate, accepted: bool, freshId: string, productId: string)
    ensures HandlePost(s, payload, freshId).response == HandlePost(s.(cache := other), payload, freshId).response
    ensures HandlePost(s, payload, freshId).after.rows == HandlePost(s.(cache := other), payload, freshId).after.rows
    ensures PutAfterValidation(s, productId, update, accepted).response
         == PutAfterValidation(s.(cache := other), productId, update, accepted).response
    ensures PutAfterValidation(s, productId, update, accepted).after.rows
         == PutAfterValidation(s.(cache := other), productId, update, accepted).after.rows
    ensures HandleDelete(s, productId).response == HandleDelete(s.(cache := other), productId).response
    ensures HandleDelete(s, productId).after.rows == HandleDelete(s.(cache := other), productId).after.rows
  {
  }

  /** With the cache down, no request changes it. */
  lemma UnreachableCacheUntouched(s: System, payload: ProductCreate, update: ProductUpdate, accepted: bool, freshId: string, productId: string, ttlSeconds: int)
    requires !s.cache.reachable
    ensures HandlePost(s, payload, freshId).after.cache == s.cache
    ensures HandleGet(s, productId, ttlSeconds).after.cache == s.cache
    ensures PutAfterValidation(s, productId, update, accepted).after.cache == s.cache
    ensures HandleDelete(s, productId).after.cache == s.cache
  {
  }

  /** The staleness window: an update made while the cache was down leaves the old
      entry in place, and once the cache is back a read serves the old product. */
  lemma StaleReadAfterFailedInvalidation()
    ensures var before := Product("abc", "Widget", "A widget", 9.99, 10);
            var s := System(map["abc" := before], CacheState(map[CacheKey("abc") := Entry(Encode(before), DefaultCacheTtlSeconds)], false));
            var u := ProductUpdate(Unset, Unset, Given(19.99), Unset);
            var put := HandlePutAsWritten(s, "abc", u);
            && put.response == Ok(before.(price := 19.99))
            && put.after.cache.entries == s.cache.entries
            && HandleGet(put.after.(cache := put.after.cache.(reachable := true)), "abc", DefaultCacheTtlSeconds).response == Ok(before)
            && !Coherent(put.after.(cache := put.after.cache.(reachable := true)))
  {
  }

  // ---------------------------------------------------------------------------
  // The store stays well formed

  lemma PostKeepsStoreWellFormed(s: System, payload: ProductCreate, freshId: string)
    requires WellFormedStore(s.rows)
    ensures WellFormedStore(HandlePost(s, payload, freshId).after.rows)
  {
  }

  lemma PutKeepsStoreWellFormed(s: System, productId: string, payload: ProductUpdate)
    requires WellFormedStore(s.rows)
    ensures WellFormedStore(HandlePutAsWritten(s, productId, payload).after.rows)
    ensures WellFormedStore(HandlePut(s, productId, payload).after.rows)
  {
  }

  lemma DeleteKeepsStoreWellFormed(s: System, productId: string)
    requires WellFormedStore(s.rows)
    ensures WellFormedStore(HandleDelete(s, productId).after.rows)
  {
  }

  // ---------------------------------------------------------------------------
  // Explicit nulls in an update body

  /** As declared, an update body with a null field passes validation and the
      emptiness check, reaches the commit, fails there, and the request ends in
      a server error instead of a client error. */
  lemma ExplicitNullPutAsWrittenFails(s: System, productId: string)
    requires productId in s.rows
    ensures var u := ProductUpdate(Null, Unset, Unset, Unset);
            && ValidUpdateAsWritten(u)
            && !NothingSupplied(u)
            && HandlePutAsWritten(s, productId, u).response == ServerError
            && HandlePut(s, productId, u).response == BadRequest
  {
  }

  /** The declared and the corrected PUT agree on every body without a null; on a
      body with a null that is otherwise valid, for a stored id, the declared one
      fails at the commit where the corrected one refuses the body. */
  lemma PutAsWrittenDiffersOnlyOnNull(s: System, productId: string, payload: ProductUpdate)
    ensures !HasNull(payload) ==> HandlePutAsWritten(s, productId, payload) == HandlePut(s, productId, payload)
    ensures HasNull(payload) && ValidUpdateAsWritten(payload) && productId in s.rows ==>
              && HandlePutAsWritten(s, productId, payload) == Outcome(ServerError, s)
              && HandlePut(s, productId, payload) == Outcome(BadRequest, s)
  {
  }

  /** With nulls rejected during validation, a PUT never fails at the commit. */
  lemma PutNeverFailsAtCommit(s: System, productId: string, payload: ProductUpdate)
    ensures HandlePut(s, productId, payload).response != ServerError
    ensures HandlePut(s, productId, payload).response.Ok? ==>
              productId in s.rows && HandlePut(s, productId, payload).response.product == Patched(s.rows[productId], payload)
  {
  }
}
