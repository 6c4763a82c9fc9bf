/**
 * The fail-soft cache in front of the record store: a key-value client standing
 * for the remote cache server, and the product cache service that wraps it so
 * that no client failure, and no corrupt cached value, ever reaches its caller.
 */
module CacheService {
  import opened Wrappers
  import opened Schemas

  const KeyPrefix: string := "product:"

  /** The expiry the configuration gives cache entries when nothing overrides it. */
  const DefaultCacheTtlSeconds: int := 3600

  /** The largest expiry in seconds the server accepts: its milliseconds must fit a
      signed 64-bit integer. */
  const MaxExpireSeconds: int := 9_223_372_036_854_775

  /** The server accepts an expiry only when it is positive and not too large; it
      answers any other with an error. */
  predicate AcceptedExpiry(ex: int) {
    0 < ex <= MaxExpireSeconds
  }

  /** The cache key of a product id: the prefix followed by the id itself. */
  function CacheKey(productId: string): (key: string)
    ensures |key| == |KeyPrefix| + |productId|
    ensures key[..|KeyPrefix|] == KeyPrefix && key[|KeyPrefix|..] == productId
  {
    KeyPrefix + productId
  }

  /** Distinct ids never share a cache key. */
  lemma CacheKeyInjective(a: string, b: string)
    ensures CacheKey(a) == CacheKey(b) <==> a == b
  {
    if CacheKey(a) == CacheKey(b) {
      assert a == CacheKey(a)[|KeyPrefix|..];
      assert b == CacheKey(b)[|KeyPrefix|..];
    }
  }

  /** A string held by the cache server: either the JSON of a product, or text that
      does not decode to one (empty, truncated, or written by someone else). */
  datatype CachedText = ProductJson(product: Product) | OtherText(text: string)

  /** Serialising a product for the cache. */
  function Encode(p: Product): CachedText {
    ProductJson(p)
  }

  /** Parsing cached text back into a product; None when it is not a product's JSON. */
  function Decode(t: CachedText): (r: Option<Product>)
    ensures r.Some? ==> t == Encode(r.value)
  {
    match t
    case ProductJson(p) => Some(p)
    case OtherText(_) => None
  }

  /** What the service writes, it reads back unchanged. */
  lemma DecodeEncodeRoundTrip(p: Product)
    ensures Decode(Encode(p)) == Some(p)
    ensures !IsEmptyText(Encode(p))
  {
  }

  predicate IsEmptyText(t: CachedText) {
    t == OtherText("")
  }

  /** A cache entry: the text and the expiry in seconds it was written with. */
  datatype Entry = Entry(text: CachedText, ttlSeconds: nat)

  /** The cache server as a value: its entries, and whether it answers at all. */
  datatype CacheState = CacheState(entries: map<string, Entry>, reachable: bool)

  /** What a cache read yields: the decoded product, or a miss when the server does
      not answer, the key is absent, or the text does not decode. */
  function Lookup(c: CacheState, productId: string): Option<Product> {
    var key := CacheKey(productId);
    if c.reachable && key in c.entries then Decode(c.entries[key].text) else None
  }

  /** The server after a cache write of a product under its own id's key. The server
      refuses an expiry it does not accept, and the write then changes nothing. */
  function Stored(c: CacheState, p: Product, ttlSeconds: int): CacheState {
    if c.reachable && AcceptedExpiry(ttlSeconds) then
      c.(entries := c.entries[CacheKey(p.id) := Entry(Encode(p), ttlSeconds)])
    else
      c
  }

  /** The server after an invalidation of an id's key. */
  function Invalidated(c: CacheState, productId: string): CacheState {
    if c.reachable then c.(entries := c.entries - {CacheKey(productId)}) else c
  }

  /** The server after an entry's expiry elapsed (done by the server itself). */
  function Expired(c: CacheState, productId: string): CacheState {
    c.(entries := c.entries - {CacheKey(productId)})
  }

  /** A write makes the next read of that id hit with the written product, and
      leaves the reads of every other id as they were. */
  lemma LookupAfterStore(c: CacheState, p: Product, ttlSeconds: int, productId: string)
    ensures Lookup(Stored(c, p, ttlSeconds), productId)
         == if c.reachable && AcceptedExpiry(ttlSeconds) && productId == p.id then Some(p) else Lookup(c, productId)
    ensures Stored(c, p, ttlSeconds).reachable == c.reachable
  {
    CacheKeyInjective(productId, p.id);
  }

  /** An invalidation makes the next read of that id miss, and leaves the reads of
      every other id as they were. */
  lemma LookupAfterInvalidate(c: CacheState, invalidated: string, productId: string)
    ensures Lookup(Invalidated(c, invalidated), productId)
         == if productId == invalidated then None else Lookup(c, productId)
    ensures Invalidated(c, invalidated).reachable == c.reachable
  {
    CacheKeyInjective(productId, invalidated);
  }

  /** An expiry makes the next read of that id miss and touches no other id. */
  lemma LookupAfterExpire(c: CacheState, expired: string, productId: string)
    ensures Lookup(Expired(c, expired), productId)
         == if productId == expired then None else Lookup(c, productId)
  {
    CacheKeyInjective(productId, expired);
  }

  /** Invalidating twice is invalidating once, and invalidating an absent key changes nothing. */
  lemma InvalidateIsIdempotent(c: CacheState, productId: string)
    ensures Invalidated(Invalidated(c, productId), productId) == Invalidated(c, productId)
    ensures CacheKey(productId) !in c.entries ==> Invalidated(c, productId) == c
  {
  }

  /** With the server unreachable, a read misses and writes and invalidations change nothing. */
  lemma UnreachableIsMissAndNoOp(c: CacheState, p: Product, ttlSeconds: int, productId: string)
    requires !c.reachable
    ensures Lookup(c, productId) == None
    ensures Stored(c, p, ttlSeconds) == c
    ensures Invalidated(c, productId) == c
  {
  }

  /** A failure reported by the cache client (connection refused, timeout, protocol error). */
  datatype Reply<+T> = Replied(value: T) | ClientError

  /** The remote cache server as reached through its client. */
  class KeyValueClient {
    var entries: map<string, Entry>
    var reachable: bool

    constructor (entries: map<string, Entry>, reachable: bool)
      ensures this.entries == entries && this.reachable == reachable
    {
      this.entries := entries;
      this.reachable := reachable;
    }

    function State(): CacheState
      reads this
    {
      CacheState(entries, reachable)
    }

    /** GET: the text under a key, nothing when absent, an error when unreachable. */
    method Get(key: string) returns (r: Reply<Option<CachedText>>)
      ensures !reachable <==> r.ClientError?
      ensures r.Replied? ==> (r.value.Some? <==> key in entries)
      ensures r.Replied? && r.value.Some? ==> r.value.value == entries[key].text
    {
      if !reachable {
        return ClientError;
      }
      r := Replied(if key in entries then Some(entries[key].text) else None);
    }

    /** SET with an expiry: overwrites the key, or fails leaving everything as it
        was; the server answers an expiry it does not accept with an error. */
    method Set(key: string, text: CachedText, ex: int) returns (r: Reply<bool>)
      modifies this
      ensures reachable == old(reachable)
      ensures r.ClientError? <==> !reachable || !AcceptedExpiry(ex)
      ensures entries == if reachable && AcceptedExpiry(ex) then old(entries)[key := Entry(text, ex)] else old(entries)
    {
      if !reachable || !AcceptedExpiry(ex) {
        return ClientError;
      }
      entries := entries[key := Entry(text, ex)];
      r := Replied(true);
    }

    /** DEL: removes the key if present and replies with the number removed. */
    method Delete(key: string) returns (r: Reply<nat>)
      modifies this
      ensures reachable == old(reachable)
      ensures r.ClientError? <==> !reachable
      ensures r.Replied? ==> r.value == if key in old(entries) then 1 else 0
      ensures entries == if reachable then old(entries) - {key} else old(entries)
    {
      if !reachable {
        return ClientError;
      }
      r := Replied(if key in entries then 1 else 0);
      entries := entries - {key};
    }

    /** The server drops an entry whose expiry has elapsed. */
    method Expire(key: string)
      modifies this
      ensures entries == old(entries) - {key} && reachable == old(reachable)
      ensures forall productId :: key == CacheKey(productId) ==> State() == Expired(old(State()), productId)
    {
      entries := entries - {key};
    }

    /** The server goes down or comes back. */
    method SetReachable(up: bool)
      modifies this
      ensures entries == old(entries) && reachable == up
    {
      reachable := up;
    }
  }

  /** The product cache: every operation is total, and a client failure turns into
      a miss or a no-op. */
  class ProductCacheService {
    const client: KeyValueClient
    const ttlSeconds: int

    constructor (client: KeyValueClient, ttlSeconds: int)
      ensures this.client == client && this.ttlSeconds == ttlSeconds
    {
      this.client := client;
      this.ttlSeconds := ttlSeconds;
    }

    /** A hit only when the server answers with text that decodes to a product. */
    method GetProductFromCache(productId: string) returns (r: Option<Product>)
      ensures r == Lookup(client.State(), productId)
      ensures r.Some? ==> client.reachable && CacheKey(productId) in client.entries
                          && client.entries[CacheKey(productId)].text == ProductJson(r.value)
    {
      var reply := client.Get(CacheKey(productId));
      match reply
      case ClientError =>
        r := None;
      case Replied(found) =>
        if found.None? || IsEmptyText(found.value) {
          r := None;
        } else {
          r := Decode(found.value);
        }
    }

    /** Writes the product under its own id's key with the configured expiry; on a
        client failure, or an expiry the server refuses, the cache is left as it was. */
    method SetProductInCache(product: Product)
      modifies client
      ensures client.State() == Stored(old(client.State()), product, ttlSeconds)
    {
      var key := CacheKey(product.id);
      var reply := client.Set(key, Encode(product), ttlSeconds);
      match reply
      case ClientError =>
      case Replied(_) =>
    }

    /** Removes the id's key; an absent key is a no-op and a failure is swallowed. */
    method InvalidateProductCache(productId: string)
      modifies client
      ensures client.State() == Invalidated(old(client.State()), productId)
    {
      var reply := client.Delete(CacheKey(productId));
      match reply
      case ClientError =>
      case Replied(_) =>
    }
  }
}
