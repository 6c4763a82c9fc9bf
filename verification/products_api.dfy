/**
 * The four product endpoints: cache-aside reads (cache first, then the store,
 * then populate) and writes that change the store first and invalidate the
 * cache key afterwards. Each handler is a method over the database and the
 * cache service, specified by a function over the whole system as a value.
 */
module ProductsApi {
  import opened Wrappers
  import opened Schemas
  import opened ProductRepository
  import opened CacheService

  /** What a handler answers. */
  datatype Response =
    | Created(product: Product)
    | Ok(product: Product)
    | NoContent
    | NotFound
    | BadRequest
    | ServerError

  /** The HTTP status of a response: success codes exactly for the three successes,
      client-error codes exactly for a refused body or an absent id. */
  function StatusCode(r: Response): (code: int)
    ensures 200 <= code < 300 <==> r.Created? || r.Ok? || r.NoContent?
    ensures 400 <= code < 500 <==> r.NotFound? || r.BadRequest?
    ensures 500 <= code <==> r.ServerError?
  {
    match r
    case Created(_) => 201
    case Ok(_) => 200
    case NoContent => 204
    case NotFound => 404
    case BadRequest => 400
    case ServerError => 500
  }

  /** The store's rows and the cache server's state. */
  datatype System = System(rows: map<string, Product>, cache: CacheState)

  datatype Outcome = Outcome(response: Response, after: System)

  /** A request that is refused changes nothing. */
  predicate RefusedUnchanged(s: System, o: Outcome) {
    (o.response.BadRequest? || o.response.NotFound? || o.response.ServerError?) ==> o.after == s
  }

  ghost function SystemOf(db: Database, cacheService: ProductCacheService): System
    reads db, cacheService.client
  {
    System(db.rows, cacheService.client.State())
  }

  /** POST: validate, insert under the fresh id, then invalidate that id's key. */
  function HandlePost(s: System, payload: ProductCreate, freshId: string): (o: Outcome)
    ensures RefusedUnchanged(s, o)
    ensures o.response.Created? <==> ValidCreate(payload)
    ensures o.response.Created? ==> o.response.product.id == freshId && ValidFields(o.response.product)
    ensures o.response.Created? ==>
              && o.response.product == NewProduct(freshId, payload)
              && o.after == System(s.rows[freshId := o.response.product], Invalidated(s.cache, freshId))
  {
    if !ValidCreate(payload) then
      Outcome(BadRequest, s)
    else
      var p := NewProduct(freshId, payload);
      Outcome(Created(p), System(s.rows[freshId := p], Invalidated(s.cache, freshId)))
  }

  /** GET: a cache hit answers at once; on a miss the store answers, and a found
      record is written to the cache (a miss on an absent id caches nothing). */
  function HandleGet(s: System, productId: string, ttlSeconds: int): (o: Outcome)
    ensures RefusedUnchanged(s, o)
    ensures o.after.rows == s.rows
    ensures o.response.Ok? || o.response.NotFound?
    ensures o.response.NotFound? <==> Lookup(s.cache, productId).None? && productId !in s.rows
  {
    match Lookup(s.cache, productId)
    case Some(cached) => Outcome(Ok(cached), s)
    case None =>
      if productId !in s.rows then
        Outcome(NotFound, s)
      else
        var p := s.rows[productId];
        Outcome(Ok(p), s.(cache := Stored(s.cache, p, ttlSeconds)))
  }

  /** PUT after request validation has decided whether the body is acceptable:
      an empty body is refused before the store is read, an absent id is not
      found, a commit failure is a server error; otherwise the row is patched and
      then the key invalidated. */
  function PutAfterValidation(s: System, productId: string, payload: ProductUpdate, accepted: bool): (o: Outcome)
    ensures RefusedUnchanged(s, o)
    ensures o.response.BadRequest? <==> !accepted || NothingSupplied(payload)
    ensures accepted && !NothingSupplied(payload) ==> (o.response.NotFound? <==> productId !in s.rows)
    ensures o.response.ServerError? <==> accepted && !NothingSupplied(payload) && productId in s.rows && HasNull(payload)
    ensures o.response.Ok? ==>
              && productId in s.rows
              && o.response.product == Patched(s.rows[productId], payload)
              && o.after == System(s.rows[productId := o.response.product], Invalidated(s.cache, productId))
  {
    if !accepted || SuppliedFields(payload) == [] then
      Outcome(BadRequest, s)
    else if productId !in s.rows then
      Outcome(NotFound, s)
    else
      match PatchResult(s.rows[productId], payload)
      case IntegrityError => Outcome(ServerError, s)
      case Committed(p) => Outcome(Ok(p), System(s.rows[productId := p], Invalidated(s.cache, productId)))
  }

  /** PUT with the update constraints exactly as declared, where a null passes
      validation and the request then fails at the commit. */
  function HandlePutAsWritten(s: System, productId: string, payload: ProductUpdate): (o: Outcome)
    ensures o.response.BadRequest? <==> !ValidUpdateAsWritten(payload) || NothingSupplied(payload)
    ensures o.response.ServerError? <==>
              ValidUpdateAsWritten(payload) && HasNull(payload) && productId in s.rows
  {
    PutAfterValidation(s, productId, payload, ValidUpdateAsWritten(payload))
  }

  /** PUT with explicit nulls rejected during validation, so the commit cannot fail. */
  function HandlePut(s: System, productId: string, payload: ProductUpdate): (o: Outcome)
    ensures o.response.BadRequest? <==> !ValidUpdate(payload) || NothingSupplied(payload)
    ensures !o.response.ServerError?
    ensures !HasNull(payload) ==> o == HandlePutAsWritten(s, productId, payload)
  {
    PutAfterValidation(s, productId, payload, ValidUpdate(payload))
  }

  /** DELETE: an absent id is not found; otherwise the row is removed and then the key invalidated. */
  function HandleDelete(s: System, productId: string): (o: Outcome)
    ensures RefusedUnchanged(s, o)
    ensures o.response.NoContent? <==> productId in s.rows
    ensures o.response.NoContent? ==> o.after.rows.Keys == s.rows.Keys - {productId}
    ensures o.response.NoContent? ==> o.after == System(s.rows - {productId}, Invalidated(s.cache, productId))
  {
    if productId !in s.rows then
      Outcome(NotFound, s)
    else
      Outcome(NoContent, System(s.rows - {productId}, Invalidated(s.cache, productId)))
  }

  method CreateProductEndpoint(db: Database, cacheService: ProductCacheService, payload: ProductCreate, freshId: string)
    returns (r: Response)
    requires db.Valid()
    requires freshId !in db.rows
    modifies db, cacheService.client
    ensures db.Valid()
    ensures Outcome(r, SystemOf(db, cacheService)) == HandlePost(old(SystemOf(db, cacheService)), payload, freshId)
  {
    if !ValidCreate(payload) {
      // rejected by request validation before the handler body runs
      return BadRequest;
    }
    var product := CreateProduct(db, payload, freshId);
    cacheService.InvalidateProductCache(product.id);
    r := Created(product);
  }

  method GetProductEndpoint(db: Database, cacheService: ProductCacheService, productId: string)
    returns (r: Response)
    requires db.Valid()
    modifies cacheService.client
    ensures Outcome(r, SystemOf(db, cacheService))
         == HandleGet(old(SystemOf(db, cacheService)), productId, cacheService.ttlSeconds)
  {
    var cachedProduct := cacheService.GetProductFromCache(productId);
    if cachedProduct.Some? {
      return Ok(cachedProduct.value);
    }
    var product := GetProductById(db, productId);
    if product.None? {
      return NotFound;
    }
    cacheService.SetProductInCache(product.value);
    r := Ok(product.value);
  }

  method UpdateProductEndpoint(db: Database, cacheService: ProductCacheService, productId: string, payload: ProductUpdate)
    returns (r: Response)
    requires db.Valid()
    modifies db, cacheService.client
    ensures db.Valid()
    ensures Outcome(r, SystemOf(db, cacheService))
         == HandlePutAsWritten(old(SystemOf(db, cacheService)), productId, payload)
  {
    if !ValidUpdateAsWritten(payload) {
      // rejected by request validation before the handler body runs
      return BadRequest;
    }
    if SuppliedFields(payload) == [] {
      return BadRequest;
    }
    var product := GetProductById(db, productId);
    if product.None? {
      return NotFound;
    }
    var updated := UpdateProduct(db, product.value, payload);
    if updated.IntegrityError? {
      // the commit's exception propagates and the request fails
      return ServerError;
    }
    cacheService.InvalidateProductCache(productId);
    r := Ok(updated.row);
  }

  method DeleteProductEndpoint(db: Database, cacheService: ProductCacheService, productId: string)
    returns (r: Response)
    requires db.Valid()
    modifies db, cacheService.client
    ensures db.Valid()
    ensures Outcome(r, SystemOf(db, cacheService)) == HandleDelete(old(SystemOf(db, cacheService)), productId)
  {
    var product := GetProductById(db, productId);
    if product.None? {
      return NotFound;
    }
    DeleteProduct(db, product.value);
    cacheService.InvalidateProductCache(productId);
    r := NoContent;
  }
}
