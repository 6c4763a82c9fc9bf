# Product API with a cache-aside cache: a Dafny model

This project models the core of a small product API. Product records live in a
relational table, the record store. A key-value cache server sits in front of it.
The model covers:

- the fail-soft product cache service. Reads, writes and invalidations are total.
  A client failure, or a cached value that does not decode, becomes a miss or a no-op.
- the four endpoint handlers. GET consults the cache first; on a miss it reads the
  store and then populates the cache. POST, PUT and DELETE change the store first
  and then invalidate the id's key.
- the repository operations on the table: create, look up, partial update, delete,
  count, and seeding at startup.
- the request-body constraints: name length 1..255, description length 1..2000,
  price strictly above 0, stock quantity at least 0.

Modules follow the source files:

- `Schemas` holds the request and response shapes and their validity predicates.
- `ProductRepository` holds the `Database` class and the repository operations. The
  update is a loop of attribute assignments followed by a commit that enforces the
  columns' NOT NULL constraint.
- `CacheService` holds `KeyValueClient` (the cache server reached through its client)
  and the `ProductCacheService` class.
- `ProductsApi` holds the handlers. Each handler is a method over the database and
  the cache service, proved equal to a function (`HandleGet`, `HandlePost`,
  `HandlePutAsWritten`, `HandleDelete`) over the whole system as a value.
- `CacheAsideProperties` holds lemmas over sequences of requests.

The central result is an invariant, `Coherent`: every product the cache would serve
equals the store's row for that id. Every handler keeps it, and so does expiry. While
it holds, a GET answers exactly what the store alone would answer. It holds trivially
while the cache is down. It is lost when the cache comes back after an invalidation
failed during the outage (`StaleReadAfterFailedInvalidation`). The proofs also rely on
failures changing only between requests (see "## Left out").

Facts about the code that the model keeps:

- the cache key of an id is `product:{id}` (src/services/cache_service.py:25).
- a price must be strictly positive (src/schemas/product.py:7).
- the table is seeded at startup with three sample products when it is empty
  (src/services/product_repository.py:48-77).
- the cache expiry comes from an integer setting with no bound. The cache server
  refuses a write whose expiry is not positive, or larger than `MaxExpireSeconds`
  (9223372036854775 seconds, whose milliseconds still fit a signed 64-bit integer).
  The service swallows that error, so with such a setting nothing is ever cached.

Representation choices:

- A cached string is either a product's JSON (`ProductJson`) or text that does not
  decode to a product (`OtherText`, which includes the empty string).
- Cache failure is the client's `reachable` flag.
- The expiry that the server enforces is an explicit `Expire` step.
- Ids that would be random UUIDs are parameters. The caller must pass an id not
  already in the store.
- Prices are `real`.

## Model

| member | source | states |
|---|---|---|
| `Schemas.SuppliedFields` | src/api/products.py:55-56 | the dump of supplied fields is empty exactly when no field of the update body was set, so the 400 check fires on exactly the empty body; at most four entries |
| `Schemas.CreateValidIffRecordValid` | src/schemas/product.py:4-8 | a create body is valid exactly when the record it yields has name 1..255, description 1..2000, price > 0 and stock >= 0, and that record carries the assigned id |
| `Schemas.UpdateBoundsMatchCreate` | src/schemas/product.py:11-15 | an update body supplying every field passes exactly when the same values pass as a create body: supplied fields are held to the create bounds |
| `Schemas.ValidUpdateRefinesDeclared` | src/schemas/product.py:11-15 | the null-rejecting update check implies the declared one, and the two differ exactly on bodies that send a null |
| `ProductRepository.CreateProduct` | src/services/product_repository.py:10-21 | inserts one row under the fresh id with exactly the payload's four values; the table grows by one and every other row is unchanged |
| `ProductRepository.GetProductById` | src/services/product_repository.py:24-25 | a row is found exactly when the id is in the table, and the row found carries that id; nothing is modified |
| `ProductRepository.Commit` | src/models/product.py:10-14 | a commit succeeds exactly when no column holds None (all columns are NOT NULL), and keeps the row's id |
| `ProductRepository.PatchResult` | src/services/product_repository.py:28-36 | an update commits exactly when no supplied field is null, and the committed row keeps the id |
| `ProductRepository.PatchOverwritesExactlySupplied` | src/services/product_repository.py:28-36 | a partial update overwrites exactly the supplied fields; the id and every field left out keep their old values |
| `ProductRepository.UpdateValidIffPatchedValid` | src/schemas/product.py:11-15 | for an update body without nulls and a record with valid fields, the declared update check passes exactly when the patched record has valid fields: supplied fields are held to the create bounds, in both directions |
| `ProductRepository.PatchKeepsValidFields` | src/schemas/product.py:11-15 | a valid update of a record with valid fields yields a record with valid fields |
| `ProductRepository.ApplyAllAppend` | src/services/product_repository.py:30-31 | applying assignments in two batches equals applying them in one |
| `ProductRepository.SetAttrLoopMeetsPatch` | src/services/product_repository.py:29-34 | assigning the supplied fields one at a time and committing gives exactly the intended patch, or an integrity error exactly when a supplied value is null |
| `ProductRepository.UpdateProduct` | src/services/product_repository.py:28-36 | the attribute loop's result is the intended patch; on success only the updated row changes, and on an integrity error the table is left as it was |
| `ProductRepository.DeleteProduct` | src/services/product_repository.py:39-41 | removes exactly that row; every other row is unchanged and the count drops by one |
| `ProductRepository.CountProducts` | src/services/product_repository.py:44-45 | the count is zero exactly when the table is empty |
| `ProductRepository.SeedProducts` | src/services/product_repository.py:48-77 | the table after seeding is the old one if it had rows, otherwise the three sample products |
| `ProductRepository.SeedingEmptyTableAddsThree` | src/services/product_repository.py:52-77 | seeding an empty table adds exactly three rows with distinct ids, each keyed by its id and satisfying the create bounds |
| `ProductRepository.SeedingIsIdempotent` | src/services/product_repository.py:48-50 | seeding a second time, with any ids, leaves the table and its count as the first seeding left them |
| `CacheService.CacheKey` | src/services/cache_service.py:23-25 | the key of an id is the prefix `product:` followed by exactly that id |
| `CacheService.CacheKeyInjective` | src/services/cache_service.py:23-25 | the keys of two ids are equal exactly when the ids are equal |
| `CacheService.Decode` | src/services/cache_service.py:32-33 | text decodes to a product only when it is exactly that product's encoding |
| `CacheService.DecodeEncodeRoundTrip` | src/services/cache_service.py:42 | a product's encoding decodes to the same product and is never the empty string |
| `CacheService.LookupAfterStore` | src/services/cache_service.py:38-46 | after a write, a read of the written id hits with the written product when the cache is up and the server accepts the expiry (positive and at most `MaxExpireSeconds`), and otherwise is unchanged; a read of any other id is unchanged |
| `CacheService.LookupAfterInvalidate` | src/services/cache_service.py:48-52 | after an invalidation, a read of that id misses, and a read of any other id is unchanged |
| `CacheService.LookupAfterExpire` | src/services/cache_service.py:43 | after the server expires an id's entry, a read of that id misses, and no other id is affected |
| `CacheService.InvalidateIsIdempotent` | src/services/cache_service.py:48-52 | invalidating twice equals invalidating once; invalidating an absent key changes nothing |
| `CacheService.UnreachableIsMissAndNoOp` | src/services/cache_service.py:34-36 | with the server down, a read is a miss and a write or an invalidation leaves the cache as it was |
| `CacheService.KeyValueClient.Get` | src/services/cache_service.py:29 | the client's GET fails exactly when the server is down, and otherwise returns the text under the key or nothing when it is absent |
| `CacheService.KeyValueClient.Set` | src/services/cache_service.py:40-44 | the client's SET with an expiry fails exactly when the server is down or the expiry is not positive or exceeds `MaxExpireSeconds`, and then leaves the entries as they were; otherwise it overwrites the key with the text and expiry |
| `CacheService.KeyValueClient.Delete` | src/services/cache_service.py:50 | the client's DEL removes the key and replies with the number removed, or fails and leaves the entries as they were |
| `CacheService.KeyValueClient.Expire` | src/services/cache_service.py:43 | when an entry's expiry elapses the server drops exactly that key and nothing else; for the key of an id this is the cache state with that id's entry expired |
| `CacheService.ProductCacheService.GetProductFromCache` | src/services/cache_service.py:27-36 | the read returns a product only when the server answers and holds that product's JSON under the id's key; an absent key, empty text, undecodable text or a client failure is a miss, never an error |
| `CacheService.ProductCacheService.SetProductInCache` | src/services/cache_service.py:38-46 | stores the product's encoding under its own id's key with the configured expiry; on a client failure, or an expiry the server refuses (zero, negative, or above `MaxExpireSeconds`), the cache is unchanged and nothing is raised |
| `CacheService.ProductCacheService.InvalidateProductCache` | src/services/cache_service.py:48-52 | removes the id's key; on a client failure the cache is unchanged and nothing is raised |
| `ProductsApi.HandlePost` | src/api/products.py:17-26 | POST is created exactly when the body is valid; the new record is the payload's four values under the fresh id, with valid fields, it is added to the store and the fresh id's key is invalidated; a refused POST changes nothing |
| `ProductsApi.HandleGet` | src/api/products.py:29-45 | GET never changes the store and answers 200 or 404; 404 exactly when the cache misses and the id is not stored; a 404 changes nothing, so no negative entry is cached |
| `ProductsApi.StatusCode` | src/api/products.py:17-79 | the status is a 2xx code exactly for 201, 200 and 204, a 4xx code exactly for 404 and 400, and a 5xx code exactly for a server error |
| `ProductsApi.PutAfterValidation` | src/api/products.py:48-64 | PUT answers 400 exactly when the body is rejected or supplies no field; an accepted non-empty body answers 404 exactly when the id is not stored, and 500 exactly when the id is stored and a supplied field is null; a 200 carries the stored row patched with the body, stores it under the id and invalidates that id's key; every refused PUT (400, 404, 500) changes neither store nor cache |
| `ProductsApi.HandlePutAsWritten` | src/api/products.py:48-64 | with the update constraints as declared, PUT answers 400 exactly when a supplied value breaks a bound or nothing is supplied, and 500 exactly when the id is stored and a supplied field is null |
| `ProductsApi.HandlePut` | src/schemas/product.py:11-15 | with nulls also rejected, PUT answers 400 exactly when the body is invalid or empty, never 500, and on bodies without a null it behaves exactly as the declared handler |
| `ProductsApi.HandleDelete` | src/api/products.py:67-79 | DELETE answers 204 exactly when the id is stored; then the store is the old one without that row, every other row unchanged, and the id's key is invalidated; a 404 changes nothing |
| `ProductsApi.CreateProductEndpoint` | src/api/products.py:17-26 | the create handler's response and new store and cache are those of `HandlePost` |
| `ProductsApi.GetProductEndpoint` | src/api/products.py:29-45 | the read handler's response and new cache are those of `HandleGet`; the store is not modified |
| `ProductsApi.UpdateProductEndpoint` | src/api/products.py:48-64 | the update handler's response and new store and cache are those of `HandlePutAsWritten`, including the 500 on a null field |
| `ProductsApi.DeleteProductEndpoint` | src/api/products.py:67-79 | the delete handler's response and new store and cache are those of `HandleDelete` |
| `CacheAsideProperties.PostKeepsCoherent` | src/api/products.py:23-25 | a POST keeps every cached product equal to the store's row |
| `CacheAsideProperties.GetKeepsCoherent` | src/api/products.py:39-45 | a GET that populates the cache from the store keeps every cached product equal to the store's row |
| `CacheAsideProperties.PutKeepsCoherent` | src/api/products.py:62-63 | a PUT that changes the store and then invalidates the key keeps every cached product equal to the store's row, whatever the validation decided (so for the declared and the corrected check) |
| `CacheAsideProperties.DeleteKeepsCoherent` | src/api/products.py:77-78 | a DELETE that removes the row and then invalidates the key keeps every cached product equal to the store's row |
| `CacheAsideProperties.ExpiryKeepsCoherent` | src/services/cache_service.py:43 | expiry of an entry keeps the cache coherent |
| `CacheAsideProperties.CoherentGetServesStore` | src/api/products.py:35-45 | while the cache is coherent, GET answers exactly what the store alone would: 200 with the row, or 404 |
| `CacheAsideProperties.ReadAfterPost` | src/api/products.py:23-25 | after a successful POST, a GET of the new id answers 200 with the created record |
| `CacheAsideProperties.ReadAfterPut` | tests/integration/test_products_api.py:35-48 | after a successful PUT, under either validation, a GET of that id answers with the updated record, whether or not the cache was up |
| `CacheAsideProperties.ReadAfterDelete` | tests/integration/test_products_api.py:51-58 | after a successful DELETE, a GET of that id answers 404 |
| `CacheAsideProperties.CacheHitIgnoresStore` | tests/integration/test_products_api.py:20-32 | a cache hit answers 200 with the cached product, changes nothing, and gives the same answer whatever the store holds, even with the row deleted behind the API's back |
| `CacheAsideProperties.MissThenHit` | src/api/products.py:35-45 | with the cache up and an expiry the server accepts, a miss on a stored id answers the row and caches it; the next GET hits with the same answer, changes nothing, and does not depend on the store |
| `CacheAsideProperties.RefusedExpiryNeverCaches` | src/services/cache_service.py:38-46 | with an expiry setting the server refuses (not positive, or above `MaxExpireSeconds`), a GET that misses answers what the store alone would and leaves the cache unchanged |
| `CacheAsideProperties.UnreachableCacheServesStore` | tests/integration/test_products_api.py:83-100 | with the cache down, GET answers what the store alone would and changes nothing |
| `CacheAsideProperties.WritesIgnoreCache` | src/api/products.py:17-79 | the answers and store effects of POST, PUT and DELETE are the same whatever the cache holds or whether it is up |
| `CacheAsideProperties.UnreachableCacheUntouched` | src/services/cache_service.py:45-52 | with the cache down, no request changes the cache |
| `CacheAsideProperties.StaleReadAfterFailedInvalidation` | src/api/products.py:62-63 | a PUT made while the cache is down leaves the old entry; once the cache is back, GET serves the old product and the cache is no longer coherent |
| `CacheAsideProperties.PostKeepsStoreWellFormed` | src/services/product_repository.py:10-21 | a POST keeps every row keyed by its id and within the create bounds |
| `CacheAsideProperties.PutKeepsStoreWellFormed` | src/services/product_repository.py:28-36 | a PUT, as declared or as corrected, keeps every row keyed by its id and within the create bounds |
| `CacheAsideProperties.DeleteKeepsStoreWellFormed` | src/services/product_repository.py:39-41 | a DELETE keeps every row keyed by its id and within the create bounds |
| `CacheAsideProperties.ExplicitNullPutAsWrittenFails` | src/schemas/product.py:12 | with the constraints as declared, a PUT whose body is `{"name": null}` passes validation and the emptiness check, fails at the commit and answers 500; with nulls rejected it answers 400 |
| `CacheAsideProperties.PutAsWrittenDiffersOnlyOnNull` | src/schemas/product.py:11-15 | the declared and the corrected PUT agree on every body without a null; on an otherwise valid body with a null for a stored id, the declared one answers 500 and the corrected one 400, both changing nothing |
| `CacheAsideProperties.PutNeverFailsAtCommit` | src/api/products.py:62-64 | with nulls rejected, PUT never answers 500, and a 200 carries the stored row patched with exactly the supplied fields |

## Left out

- Cache client construction, socket timeouts and logging of warnings. A failure is the client's `reachable` flag; the warning channel is not modelled.
- A client failure in the middle of one request, such as a GET whose cache read fails but whose cache write succeeds. Failures change only between requests (`KeyValueClient.SetReachable`).
- Database engine, session and transaction plumbing. A commit either writes the row or leaves the table unchanged.
- Record store unavailability. A store error other than the NOT NULL rejection is not modelled.
- Web framework wiring, routing and dependency injection. The health route is also left out. Request validation, which the framework maps to 400 (src/main.py:33-35), is the first step of each handler.
- Environment parsing. The expiry is the service's integer `ttlSeconds`; `DefaultCacheTtlSeconds` is the configured default.
- Wall-clock expiry. It is enforced by the cache server, so it appears only as the explicit `Expire` step.
- JSON text. Encoding is abstract and round-trips exactly; a cached string is either a product's JSON or text that does not decode.
- Random UUID generation. Fresh ids are parameters with a freshness precondition. Seeding requires its three ids to be distinct.
- Floating-point prices. Prices are `real`, and float rounding through JSON is not modelled.
- Concurrent requests on the same key, and the race between a read's store lookup and its cache write. Requests are sequential.
- The maximum id length of the id column (64) is not modelled.
- Commit, HandlePost, HandlePutAsWritten: the range of the integer column is not modelled. `stock_quantity` is validated only as `>= 0` (src/schemas/product.py:8, 15), and the column is an `Integer` (src/models/product.py:14). A body whose stock quantity is too large for the database's integer type passes validation, fails when it is written, and the request answers 500. The model commits it, answering 201 or 200. The width depends on the database backend (64-bit for the default SQLite, 32-bit for `INTEGER` elsewhere), so the model leaves it out.
- AcceptedExpiry: the server's upper expiry bound is taken in seconds alone. On the server the expiry is added to its clock in milliseconds and that sum must also fit 64 bits, so an expiry less than the current Unix time (in seconds) below `MaxExpireSeconds` is also refused, depending on the clock. Server versions before 7 check the bound differently.

## Findings

| source | as written | input that shows it | evidently intended | confidence | as-written member | corrected member |
|---|---|---|---|---|---|---|
| src/schemas/product.py:12-15 | update fields are declared optional (a string, number or None), so an explicit JSON null passes validation; the dump of set fields keeps it, so the empty-body check (src/api/products.py:55) passes; the update assigns None, and the commit violates the NOT NULL columns (src/models/product.py:11-14), so the request fails with 500 | `PUT /products/{id}` with body `{"name": null}` for a stored id | invalid input is rejected with 400 before the store is touched | medium, not executed | `CacheAsideProperties.ExplicitNullPutAsWrittenFails` | `CacheAsideProperties.PutNeverFailsAtCommit` |

`ProductsApi.UpdateProductEndpoint` and its function `ProductsApi.HandlePutAsWritten`
model the PUT handler with the constraints as declared (`Schemas.ValidUpdateAsWritten`).
`ProductsApi.HandlePut` is the corrected handler. Its check, `Schemas.ValidUpdate`,
also rejects an explicit null. `CacheAsideProperties.PutAsWrittenDiffersOnlyOnNull`
shows the two differ on exactly such bodies. The coherence, read-after-write,
fail-soft and well-formedness lemmas about PUT are stated for any validation outcome,
or for both handlers, so they hold for the code as written and as corrected.
