# order-enricher: a Dafny model of the enrichment core

The order-enricher service takes an order request (order id, customer id,
product ids, timestamp), fetches the customer from a customer service and each
product from a product service, persists an *enriched order* that holds
snapshots of the customer and of every product plus the total price, and
serves stored orders by id or as a list filtered by customer and/or product.
Both reads go through one cache named `orders`, and every successful create
clears it.

The model has six modules:

- `Domain`: the API shapes (`OrderRequest`, `Customer`, `Product`, `EnrichedOrderResponse`)
  and the persisted shapes (`EnrichedOrder`, `CustomerInfo`, `ProductInfo`).
- `Mapper`: `OrderMapper.toEntity` and `toApi` with their field helpers.
  - The total is the left fold of `reduce`.
  - It is proved equal to the sum of the prices.
  - The sum is proved independent of product order.
  - The round trip is proved exact.
- `Clients`: `CustomerServiceClient` and `ProductServiceClient`.
  - Each client carries its base URL and the upstream answer to a request.
  - The client turns that answer into the record or an error: 404 becomes "not found"; every other failure becomes "unavailable".
- `Repository`: the keyed table with `save`, `findById` and `findAll`, and the `findByCriteria` query.
  - The query is written the way the query text reads: left join, two optional conditions, select, DISTINCT.
  - It is proved equal to a plain filter.
- `Cache`: the two cache keys as the annotations write them, the collisions between them, and the key the model uses instead.
- `Service`: `OrderService` as a class.
  - Its state is the table, the cache, a log of upstream requests and a log of repository calls.
  - `CreateOrder`, `GetOrderById` and `GetOrders` are proved against pure specification functions.
  - Every cache entry is kept coherent with the table.

Prices are exact rationals (`real`), as `BigDecimal` addition is exact.
Timestamps are copied and never interpreted, so they are an opaque record.

The table's enumeration order is not fixed by the store. Every listing result
is therefore stated for any listing of the table (`Repository.IsListing`).

## Model

| member | source | states |
|---|---|---|
| Mapper.ToEntity | src/main/java/com/teamviewer/orderenricher/mapper/OrderMapper.java:19-32 | `toEntity` keeps the request's order id and timestamp and the fetched customer's id. It has one line item per product, each with that product's id, and the total is the sum of the prices (proved from the `reduce` fold by `Mapper.ReduceIsSum`). `Mapper.ToEntityContents` states every field. |
| Mapper.ToApi | src/main/java/com/teamviewer/orderenricher/mapper/OrderMapper.java:34-82 | `toApi` passes through the order id, timestamp and stored total. Its customer and products are exactly what the snapshot functions turn back into the stored customer and items, so `toApi` inverts the snapshots. `Mapper.RoundTrip` and `Mapper.ToApiLosesNothing` build on this. |
| Mapper.ReduceIsSum | src/main/java/com/teamviewer/orderenricher/mapper/OrderMapper.java:26-28 | The `reduce` left fold of the prices from an accumulator adds exactly the sum of the prices to it. |
| Mapper.ToEntityContents | src/main/java/com/teamviewer/orderenricher/mapper/OrderMapper.java:19-62 | `toEntity` works as follows: order id and timestamp come from the request; every customer field comes from the fetched customer, including its id rather than the request's customer id; there is one snapshot per product, in order and with repeats; the total is the sum of the snapshot prices, and zero for no products. |
| Mapper.TotalIgnoresProductOrder | src/main/java/com/teamviewer/orderenricher/mapper/OrderMapper.java:26-29 | Two product lists that are permutations of each other give the same stored total. |
| Mapper.RoundTrip | src/test/java/com/teamviewer/orderenricher/mapper/OrderMapperTest.java:20-43 | `toApi(toEntity(r, c, ps))` has the request's id and timestamp, exactly `c`, exactly `ps` in order, and the sum of the prices of `ps`. |
| Mapper.ToApiLosesNothing | src/main/java/com/teamviewer/orderenricher/mapper/OrderMapper.java:34-82 | `toApi` is injective: two entities with equal views are equal in every field. |
| Clients.GetCustomerById | src/main/java/com/teamviewer/orderenricher/client/CustomerServiceClient.java:23-32 | The request goes to `<url>/customers/{id}` with the customer id. The result is a success exactly when a body was received, and it is that body unchanged. The error is "not found" exactly on status 404, with the message naming the id. Every other failure is "unavailable" with the fixed message. |
| Clients.GetProductById | src/main/java/com/teamviewer/orderenricher/client/ProductServiceClient.java:23-32 | The same as `GetCustomerById`, for `<url>/products/{id}` and the product messages. |
| Clients.CustomerNotFoundNamesTheId | src/main/java/com/teamviewer/orderenricher/client/CustomerServiceClient.java:28 | Equal "customer not found" messages name the same id. |
| Clients.ProductNotFoundNamesTheId | src/main/java/com/teamviewer/orderenricher/client/ProductServiceClient.java:28 | Equal "product not found" messages name the same id. |
| Clients.CustomerErrorsDistinguishable | src/main/java/com/teamviewer/orderenricher/client/CustomerServiceClient.java:27-30 | No "customer not found" message equals the "customer service unavailable" message. |
| Clients.ProductErrorsDistinguishable | src/main/java/com/teamviewer/orderenricher/client/ProductServiceClient.java:27-30 | No "product not found" message equals the "product service unavailable" message. |
| Repository.Save | src/main/java/com/teamviewer/orderenricher/repository/EnrichedOrderRepository.java:12 | `save` stores the order under its id, replacing an order with that id and adding one otherwise. It leaves every other entry unchanged and keeps every order under its own id. |
| Repository.FindById | src/main/java/com/teamviewer/orderenricher/repository/EnrichedOrderRepository.java:12 | The inherited `findById` finds an order iff one is stored under the id, and it is that order. On a table keyed by order id, the order found carries the id asked for. |
| Repository.Scan | src/main/java/com/teamviewer/orderenricher/repository/EnrichedOrderRepository.java:12 | `findAll` lists every stored order exactly once, in an order the store chooses. |
| Repository.Filter | src/main/java/com/teamviewer/orderenricher/repository/EnrichedOrderRepository.java:14-26 | The reference filter: an order is kept iff it is in the table and matches both optional conditions. It adds no repeats, and it is empty when nothing matches. |
| Repository.FindByCriteria | src/main/java/com/teamviewer/orderenricher/repository/EnrichedOrderRepository.java:16-26 | On any table, the query as written (left join, where, select, DISTINCT) returns exactly the orders of the table that meet both optional conditions, each once. `Repository.FindByCriteriaIsFilter` adds that they come in table order. |
| Repository.FindByCriteriaIsFilter | src/main/java/com/teamviewer/orderenricher/repository/EnrichedOrderRepository.java:19-26 | The query as written (left join, where, select, DISTINCT) returns exactly the reference filter of a repeat-free table. |
| Repository.FindByCriteriaSoundCompleteDistinct | src/main/java/com/teamviewer/orderenricher/repository/EnrichedOrderRepository.java:14-26 | Over any listing of the table, every order returned meets the following: it is stored, has the asked customer if one was given, and has an item of the asked product if one was given. Every stored order that meets both conditions is returned. No order is returned twice. |
| Repository.DistinctRemovesRepeats | src/main/java/com/teamviewer/orderenricher/repository/EnrichedOrderRepository.java:17-24 | An order with two items of the asked product gives two joined rows and comes back once. |
| Repository.OrderWithoutItems | src/main/java/com/teamviewer/orderenricher/repository/EnrichedOrderRepository.java:22-24 | Because of the left join, an order without items qualifies when no product is asked for. It never qualifies when a product is asked for. |
| Cache.OrdersKeyNullCollision | src/main/java/com/teamviewer/orderenricher/service/OrderService.java:69 | The listing key as written is the same for "no customer filter" and for the customer id `"null"`. |
| Cache.OrdersKeyMeetsOrderId | src/main/java/com/teamviewer/orderenricher/service/OrderService.java:61-69 | The key as written for `getOrderById("customerId=null;productId=null")` equals the key for the unfiltered listing. |
| Service.LeadingSuccesses | src/main/java/com/teamviewer/orderenricher/service/OrderService.java:45-50 | The number of leading product ids that are fetched successfully: all ids before it succeed, and the id at it fails. |
| Service.FetchProducts | src/main/java/com/teamviewer/orderenricher/service/OrderService.java:45-50 | The product fetches of a create succeed iff every id succeeds. On success, the products come in id order, duplicates included, each being what its lookup returned. Otherwise the result is the error of the first failing id. |
| Service.ShortCircuit | src/main/java/com/teamviewer/orderenricher/service/OrderService.java:42-54 | If the k-th product fails and all before it succeed, the fetches fail with that product's error, and only the first k + 1 ids are requested. |
| Service.AllProductsRequested | src/main/java/com/teamviewer/orderenricher/service/OrderService.java:45-50 | When every product is found, every id is requested once, in order. |
| Service.MatchingProducts | src/main/java/com/teamviewer/orderenricher/service/OrderService.java:82-83 | The item filter keeps every item with the asked product id as often as it occurs, and no other item. |
| Service.MatchingProductsAppend | src/main/java/com/teamviewer/orderenricher/service/OrderService.java:82-83 | The item filter keeps relative order: filtering a concatenation filters each part. |
| Service.NarrowProducts | src/main/java/com/teamviewer/orderenricher/service/OrderService.java:80-86 | The `forEach` loop replaces each order's items by its matching items and changes nothing else. |
| Service.OrdersViewContents | src/main/java/com/teamviewer/orderenricher/service/OrderService.java:70-91 | Each listed view is the view of a distinct stored order meeting the filters. Its items are cut down to the asked product, if any. Its stored total is unchanged. Every stored order meeting the filters is listed. |
| Service.CreatedOrderIsVisible | src/main/java/com/teamviewer/orderenricher/service/OrderService.java:52-66 | After a save, the new order's view is found by its id and appears in the unfiltered listing. |
| Service.SharedKeyServesWrongListing | src/main/java/com/teamviewer/orderenricher/service/OrderService.java:69 | The following holds for a store with one order whose customer id is not "null". The unfiltered listing is correct for `(null, null)` and is cached under the key written for `("null", null)`. It is not a correct answer for `("null", null)`. |
| Service.SharedKeyServesListingById | src/main/java/com/teamviewer/orderenricher/service/OrderService.java:61-69 | With the keys as written, the entry the unfiltered listing caches sits under the key `getOrderById("customerId=null;productId=null")` reads. It is a listing entry, never the correct by-id answer for that id, even when the listing itself is correct. |
| Service.ProductFilterShowsOnlyAskedItem | src/test/java/com/teamviewer/orderenricher/service/OrderServiceTest.java:124-154 | An order with items A1 and B2, listed with product filter A1, comes back once, showing only A1 and its full stored total. |
| Service.OrderService.CreateOrder | src/main/java/com/teamviewer/orderenricher/service/OrderService.java:34-58 | The create path requests the customer first and then the products in order, stopping at the first failure. A failure returns that error unchanged and leaves the table, the cache and the repository log as they were. Otherwise it saves the mapped order exactly once, returns its view and clears the cache. |
| Service.OrderService.FetchProductsInOrder | src/main/java/com/teamviewer/orderenricher/service/OrderService.java:45-50 | The product stream's loop returns `FetchProducts`. It logs exactly the requests it sends: up to and including the first failing id. |
| Service.OrderService.GetOrderById | src/main/java/com/teamviewer/orderenricher/service/OrderService.java:60-66 | The answer is always the stored order's view, or nothing, whether a cache hit or a miss. A hit touches nothing. A miss makes one `findById` call and caches the answer, absence included. |
| Service.OrderService.GetOrders | src/main/java/com/teamviewer/orderenricher/service/OrderService.java:68-91 | The answer is always a correct listing for the filters, over some listing of the table. A hit touches nothing. A miss makes one repository call, `findAll` when both filters are absent and `findByCriteria` otherwise, and caches the answer under the filter pair. |
| Service.ReadCreateRead | src/main/java/com/teamviewer/orderenricher/service/OrderService.java:35-66 | After a successful create, reading an order by id asks the table again and sees it as it is after the create. The created order is read back as the view that the create returned. |

## Left out

- HTTP, JSON and `RestTemplate` are not modelled: the upstream answer is a parameter of each client, and a 2xx reply without a body (a null record) is not modelled.
- Clients.GetCustomerById, Clients.GetProductById, Service.OrderService.CreateOrder: each upstream service is modelled as a fixed function from request to answer for the life of the service. Each call in the code is an independent HTTP exchange, so the model does not capture several behaviours:
  - the same product id fetched twice within one create (`[P1, P1]`) can succeed once and fail once, or return two different prices;
  - a transient failure can clear when the caller retries;
  - a customer or product record can change between two creates.
  Within the model, repeated ids within one create always get the same answer.
- Clients.GetCustomerById, Clients.GetProductById: the "unavailable" error carries only its message. The underlying `RestClientException`, which the code passes as the cause, is not modelled.
- Clients.GetCustomerById, Clients.GetProductById: a 404 is assumed to arrive as the `HttpClientErrorException.NotFound` subclass, which the default error handler raises. A plain `HttpClientErrorException` built with status 404, as the client tests' mocks throw it, would reach the second catch and be reported as unavailable.
- JPA, transactions, flushing and `readOnly` are not modelled. The table is a map of values. `getOrders` narrows the items of the loaded entities in place, and the model narrows copies, so entity identity and aliasing are not captured.
- Store failures (exceptions from `save`, `findById` or the query) are not modelled. No rollback is needed because the model's save cannot fail.
- Concurrency between requests is not modelled: each operation runs alone.
- Logging is not modelled.
- The REST controller, the exception handler and their status codes are not part of this model.
- `StringListConverter` (the storage of tags as one column) is not part of this model. Tags are a sequence.
- `BigDecimal` scale (`100.0` vs `100.00`) is not modelled: prices are exact rationals.
- Null fields are not modelled. Optional arguments are `Option`, and every other field is present.
- The constructor `Service.OrderService.constructor` stands for the injected dependencies. It has no source logic of its own and no row.
- Validation of the request (for example, a non-empty product-id list) is not in the sources this model covers: the controller passes the request on without validating it, and the generated API interface is not part of this model. The service accepts any list, the empty one included.

## Findings

| source | as written | input that shows it | evidently intended | confidence | as-written member | corrected member |
|---|---|---|---|---|---|---|
| src/main/java/com/teamviewer/orderenricher/service/OrderService.java:69 | The listing key concatenates the arguments, and a null argument renders as `null`. | `getOrders(null, null)` on a table with one order of customer `C1`, then `getOrders("null", null)`: the second call is served the first call's list, which has no order of customer `"null"`. | Distinct argument pairs have distinct cache entries. | high; not executed | Service.SharedKeyServesWrongListing | Service.OrderService.GetOrders |
| src/main/java/com/teamviewer/orderenricher/service/OrderService.java:61-69 | `getOrderById` keys the shared `orders` cache by the bare order id, in the same key space as the listing keys. | `getOrders(null, null)`, then `getOrderById("customerId=null;productId=null")`: the by-id call finds a cached list where it expects an optional order. | The two operations' entries never share a key. | medium; not executed | Service.SharedKeyServesListingById | Service.OrderService.GetOrderById |

The service model keys its cache by `Cache.CacheKey`. That key names the operation and all of its arguments, so neither collision can occur. Both read methods are proved to return the correct answer on a cache hit.
