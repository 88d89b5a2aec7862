/**
  `OrderService`: creating an enriched order from the two upstream services,
  reading one order through the cache, and listing orders with optional
  filters through the cache.

  The service object owns the repository's table (`store`), the `orders`
  cache, and two logs: every request sent upstream and every repository call
  made, each in the order made. The pure functions before the class say what
  the operations compute; the class's methods are proved against them.
 */
module Service {
  import opened Domain
  import opened Clients
  import Mapper
  import Repository
  import opened Cache

  /** A repository call, as recorded in `storeCalls`. */
  datatype StoreCall =
    | FindByIdCall(orderId: string)
    | FindAllCall
    | FindByCriteriaCall(customerId: Option<string>, productId: Option<string>)
    | SaveCall(order: EnrichedOrder)

  /** A cached result: of `getOrderById` (present or absent) or of `getOrders`. */
  datatype CacheEntry =
    | OrderEntry(found: Option<EnrichedOrderResponse>)
    | OrdersEntry(views: seq<EnrichedOrderResponse>)

  // ---------------------------------------------------------------------------
  // Create path

  /** How many of the product ids, from the front, are fetched successfully. */
  function LeadingSuccesses(client: ProductServiceClient, productIds: seq<string>): (k: nat)
    ensures k <= |productIds|
    ensures forall j :: 0 <= j < k ==> GetProductById(client, productIds[j]).Success?
    ensures k < |productIds| ==> GetProductById(client, productIds[k]).Failure?
  {
    if productIds == [] || GetProductById(client, productIds[0]).Failure? then 0
    else 1 + LeadingSuccesses(client, productIds[1..])
  }

  /** The product fetches of `createOrder`: every product in order, or the first error. */
  function FetchProducts(client: ProductServiceClient, productIds: seq<string>): (r: Result<seq<Product>>)
    ensures r.Success? <==> LeadingSuccesses(client, productIds) == |productIds|
    ensures r.Success? ==>
      && |r.value| == |productIds|
      && forall j :: 0 <= j < |productIds| ==> GetProductById(client, productIds[j]) == Success(r.value[j])
    ensures r.Failure? ==>
      GetProductById(client, productIds[LeadingSuccesses(client, productIds)]) == Failure(r.error)
  {
    if productIds == [] then Success([])
    else
      match GetProductById(client, productIds[0])
      case Failure(e) => Failure(e)
      case Success(p) =>
        match FetchProducts(client, productIds[1..])
        case Failure(e) => Failure(e)
        case Success(ps) => Success([p] + ps)
  }

  /** One product request per id, in the order given. */
  function RequestsFor(client: ProductServiceClient, productIds: seq<string>): seq<Request>
  {
    seq(|productIds|, i requires 0 <= i < |productIds| => ProductRequest(client, productIds[i]))
  }

  /** The product requests `createOrder` sends: up to and including the first failing id. */
  function ProductRequestsSent(client: ProductServiceClient, productIds: seq<string>): seq<Request>
  {
    var k := LeadingSuccesses(client, productIds);
    RequestsFor(client, productIds[..if k < |productIds| then k + 1 else k])
  }

  /**
    When the k-th product fails and all before it succeed, creation fails with
    that product's error and exactly the first k + 1 ids have been requested:
    no id after the failing one is fetched.
   */
  lemma ShortCircuit(client: ProductServiceClient, productIds: seq<string>, k: nat)
    requires k < |productIds|
    requires forall j :: 0 <= j < k ==> GetProductById(client, productIds[j]).Success?
    requires GetProductById(client, productIds[k]).Failure?
    ensures FetchProducts(client, productIds) == Failure(GetProductById(client, productIds[k]).error)
    ensures ProductRequestsSent(client, productIds) == RequestsFor(client, productIds[..k + 1])
    ensures |ProductRequestsSent(client, productIds)| == k + 1
  {
  }

  /** When every product is found, every id is requested once, in order, duplicates included. */
  lemma AllProductsRequested(client: ProductServiceClient, productIds: seq<string>)
    requires FetchProducts(client, productIds).Success?
    ensures ProductRequestsSent(client, productIds) == RequestsFor(client, productIds)
    ensures |ProductRequestsSent(client, productIds)| == |productIds|
  {
    assert productIds[..|productIds|] == productIds;
  }

  // ---------------------------------------------------------------------------
  // Read paths

  /** `getOrderById` without the cache: the stored order's view, or nothing. */
  function LookupView(store: map<string, EnrichedOrder>, orderId: string): Option<EnrichedOrderResponse>
  {
    match Repository.FindById(store, orderId)
    case None => None
    case Some(order) => Some(Mapper.ToApi(order))
  }

  /** The stream filter on line items: keep those with the given product id. */
  function MatchingProducts(products: seq<ProductInfo>, productId: string): (r: seq<ProductInfo>)
    ensures forall x :: multiset(r)[x] == if x.productId == productId then multiset(products)[x] else 0
  {
    if products == [] then []
    else
      assert products == [products[0]] + products[1..];
      (if products[0].productId == productId then [products[0]] else [])
      + MatchingProducts(products[1..], productId)
  }

  /** The filter keeps the relative order: filtering a concatenation filters each part. */
  lemma {:induction false} MatchingProductsAppend(a: seq<ProductInfo>, b: seq<ProductInfo>, productId: string)
    ensures MatchingProducts(a + b, productId) == MatchingProducts(a, productId) + MatchingProducts(b, productId)
  {
    if a == [] {
      assert a + b == b;
    } else {
      assert (a + b)[0] == a[0];
      assert (a + b)[1..] == a[1..] + b;
      MatchingProductsAppend(a[1..], b, productId);
    }
  }

  /** An order as `getOrders` presents it: with only the asked product's line items, if one was asked. */
  function Narrowed(order: EnrichedOrder, productId: Option<string>): EnrichedOrder
  {
    match productId
    case None => order
    case Some(p) => order.(products := MatchingProducts(order.products, p))
  }

  function NarrowAll(orders: seq<EnrichedOrder>, productId: Option<string>): seq<EnrichedOrder>
  {
    seq(|orders|, i requires 0 <= i < |orders| => Narrowed(orders[i], productId))
  }

  function ToApiAll(orders: seq<EnrichedOrder>): seq<EnrichedOrderResponse>
  {
    seq(|orders|, i requires 0 <= i < |orders| => Mapper.ToApi(orders[i]))
  }

  /** `getOrders` without the cache, over the listing `table` of the store. */
  function OrdersView(table: seq<EnrichedOrder>, customerId: Option<string>, productId: Option<string>)
    : seq<EnrichedOrderResponse>
  {
    if customerId.None? && productId.None? then ToApiAll(table)
    else ToApiAll(NarrowAll(Repository.FindByCriteria(table, customerId, productId), productId))
  }

  /** `views` is what `getOrders` may answer for the store, whatever order the store lists it in. */
  ghost predicate OrdersResult(store: map<string, EnrichedOrder>, customerId: Option<string>,
                               productId: Option<string>, views: seq<EnrichedOrderResponse>)
  {
    exists table :: Repository.IsListing(store, table) && views == OrdersView(table, customerId, productId)
  }

  /** A cache entry agrees with what its operation would compute from the store now. */
  ghost predicate Coherent(store: map<string, EnrichedOrder>, key: CacheKey, entry: CacheEntry)
  {
    match key
    case OrderIdKey(orderId) => entry == OrderEntry(LookupView(store, orderId))
    case OrdersKey(customerId, productId) => entry.OrdersEntry? && OrdersResult(store, customerId, productId, entry.views)
  }

  /** The `forEach` of `getOrders`: replace each order's line items by the matching ones. */
  method NarrowProducts(orders: seq<EnrichedOrder>, productId: string) returns (narrowed: seq<EnrichedOrder>)
    ensures narrowed == NarrowAll(orders, Some(productId))
  {
    narrowed := orders;
    var i := 0;
    while i < |narrowed|
      invariant |narrowed| == |orders| && 0 <= i <= |orders|
      invariant forall j :: 0 <= j < i ==> narrowed[j] == Narrowed(orders[j], Some(productId))
      invariant forall j :: i <= j < |orders| ==> narrowed[j] == orders[j]
    {
      narrowed := narrowed[i := Narrowed(narrowed[i], Some(productId))];
      i := i + 1;
    }
    assert forall j :: 0 <= j < |orders| ==> narrowed[j] == NarrowAll(orders, Some(productId))[j];
  }

  /**
    What a listing answer contains. Each view is the view of a distinct stored
    order that meets the filters, with its line items cut down to the asked
    product if one was asked and with its stored total unchanged; every stored
    order that meets the filters is in the answer.
   */
  ghost predicate ListsMatchingOrders(store: map<string, EnrichedOrder>, customerId: Option<string>,
                                      productId: Option<string>, views: seq<EnrichedOrderResponse>)
  {
    && (forall i :: 0 <= i < |views| ==>
          && views[i].orderId in store
          && Repository.Matches(store[views[i].orderId], customerId, productId)
          && views[i] == Mapper.ToApi(Narrowed(store[views[i].orderId], productId))
          && views[i].totalPrice == store[views[i].orderId].totalPrice)
    && (forall i, j :: 0 <= i < j < |views| ==> views[i].orderId != views[j].orderId)
    && (forall id :: id in store && Repository.Matches(store[id], customerId, productId) ==>
          exists i :: 0 <= i < |views| && views[i].orderId == id)
  }

  /** A listing answer, over any listing of the table, lists exactly the matching stored orders. */
  lemma OrdersViewContents(store: map<string, EnrichedOrder>, table: seq<EnrichedOrder>,
                           customerId: Option<string>, productId: Option<string>)
    requires Repository.IsListing(store, table)
    ensures ListsMatchingOrders(store, customerId, productId, OrdersView(table, customerId, productId))
  {
    if customerId.None? && productId.None? {
      UnfilteredViewContents(store, table);
    } else {
      FilteredViewContents(store, table, customerId, productId);
    }
  }

  /** The `findAll` branch: one view per listed order. */
  lemma UnfilteredViewContents(store: map<string, EnrichedOrder>, table: seq<EnrichedOrder>)
    requires Repository.IsListing(store, table)
    ensures ListsMatchingOrders(store, None, None, OrdersView(table, None, None))
  {
    var views := OrdersView(table, None, None);
    forall id | id in store
      ensures exists i :: 0 <= i < |views| && views[i].orderId == id
    {
      var i :| 0 <= i < |table| && table[i].orderId == id;
      assert views[i].orderId == id;
    }
  }

  /** The `findByCriteria` branch: one narrowed view per order the query returns. */
  lemma FilteredViewContents(store: map<string, EnrichedOrder>, table: seq<EnrichedOrder>,
                             customerId: Option<string>, productId: Option<string>)
    requires Repository.IsListing(store, table)
    requires customerId.Some? || productId.Some?
    ensures ListsMatchingOrders(store, customerId, productId, OrdersView(table, customerId, productId))
  {
    var views := OrdersView(table, customerId, productId);
    Repository.FindByCriteriaSoundCompleteDistinct(store, table, customerId, productId);
    var found := Repository.FindByCriteria(table, customerId, productId);
    assert |views| == |found|;
    forall i | 0 <= i < |views|
      ensures views[i].orderId == found[i].orderId
      ensures views[i] == Mapper.ToApi(Narrowed(found[i], productId))
      ensures Repository.Matches(store[views[i].orderId], customerId, productId)
    {
      assert found[i] in found;
    }
    forall id | id in store && Repository.Matches(store[id], customerId, productId)
      ensures exists i :: 0 <= i < |views| && views[i].orderId == id
    {
      var i :| 0 <= i < |found| && found[i] == store[id];
      assert views[i].orderId == id;
    }
  }

  /** After a create, the new order is found by id and appears in the unfiltered listing. */
  lemma CreatedOrderIsVisible(store: map<string, EnrichedOrder>, request: OrderRequest,
                              customer: Customer, products: seq<Product>, table: seq<EnrichedOrder>)
    requires Repository.Keyed(store)
    requires Repository.IsListing(Repository.Save(store, Mapper.ToEntity(request, customer, products)), table)
    ensures var view := Mapper.ToApi(Mapper.ToEntity(request, customer, products));
      && LookupView(Repository.Save(store, Mapper.ToEntity(request, customer, products)), request.orderId) == Some(view)
      && view in OrdersView(table, None, None)
  {
    var order := Mapper.ToEntity(request, customer, products);
    var saved := Repository.Save(store, order);
    var views := OrdersView(table, None, None);
    OrdersViewContents(saved, table, None, None);
    assert order.orderId in saved && Repository.Matches(saved[order.orderId], None, None);
    var i :| 0 <= i < |views| && views[i].orderId == order.orderId;
    assert views[i] == Mapper.ToApi(Narrowed(saved[order.orderId], None));
  }

  /**
    With the key as written, the listing cached for `getOrders(null, null)`
    sits under the same string as `getOrders("null", null)` and would be
    served for it, although it is not a correct answer there: the store below
    holds one order of a customer other than "null".
   */
  lemma SharedKeyServesWrongListing(order: EnrichedOrder)
    requires order.customer.customerId != "null"
    ensures OrdersKeyAsWritten(None, None) == OrdersKeyAsWritten(Some("null"), None)
    ensures OrdersResult(map[order.orderId := order], None, None, [Mapper.ToApi(order)])
    ensures !OrdersResult(map[order.orderId := order], Some("null"), None, [Mapper.ToApi(order)])
  {
    var store := map[order.orderId := order];
    OrdersKeyNullCollision();
    assert [order][0].orderId == order.orderId;
    assert Repository.IsListing(store, [order]);
    assert OrdersView([order], None, None) == [Mapper.ToApi(order)];
    forall table | Repository.IsListing(store, table)
      ensures OrdersView(table, Some("null"), None) == []
    {
      NoOrdersOfNullCustomer(order, table);
    }
  }

  /** A store whose one order is not of customer "null" lists nothing for that customer. */
  lemma NoOrdersOfNullCustomer(order: EnrichedOrder, table: seq<EnrichedOrder>)
    requires order.customer.customerId != "null"
    requires Repository.IsListing(map[order.orderId := order], table)
    ensures OrdersView(table, Some("null"), None) == []
  {
    assert Repository.NoDuplicates(table);
    Repository.FindByCriteriaIsFilter(table, Some("null"), None);
    forall o | o in table ensures !Repository.Matches(o, Some("null"), None) {
      var i :| 0 <= i < |table| && table[i] == o;
    }
  }

  /**
    With the keys as written, the entry that the unfiltered listing caches is
    the entry `getOrderById("customerId=null;productId=null")` finds: a
    listing, never the by-id answer for that id, even when the listing itself
    is correct.
   */
  lemma SharedKeyServesListingById(store: map<string, EnrichedOrder>, views: seq<EnrichedOrderResponse>)
    requires OrdersResult(store, None, None, views)
    ensures var cache := map[OrdersKeyAsWritten(None, None) := OrdersEntry(views)];
      var key := OrderIdKeyAsWritten("customerId=null;productId=null");
      && key in cache
      && cache[key].OrdersEntry?
      && !Coherent(store, OrderIdKey("customerId=null;productId=null"), cache[key])
  {
    OrdersKeyMeetsOrderId();
  }

  /**
    An order with line items A1 and B2, listed with product filter A1, comes
    back once and shows only A1, with its full stored total.
   */
  lemma ProductFilterShowsOnlyAskedItem(order: EnrichedOrder, a1: ProductInfo, b2: ProductInfo)
    requires a1.productId == "PROD-A1" && b2.productId == "PROD-B2"
    requires order.products == [a1, b2]
    ensures OrdersView([order], None, Some("PROD-A1")) == [Mapper.ToApi(order.(products := [a1]))]
    ensures OrdersView([order], None, Some("PROD-A1"))[0].totalPrice == order.totalPrice
  {
    OnlyOrderSelected(order, "PROD-A1");
    OnlyFirstItemMatches(a1, b2, "PROD-A1");
    var narrowed := order.(products := [a1]);
    assert Narrowed(order, Some("PROD-A1")) == narrowed;
    assert NarrowAll([order], Some("PROD-A1")) == [narrowed];
    assert ToApiAll([narrowed]) == [Mapper.ToApi(narrowed)];
  }

  /** The query on a one-order table with a matching item returns that order. */
  lemma OnlyOrderSelected(order: EnrichedOrder, productId: string)
    requires |order.products| > 0 && order.products[0].productId == productId
    ensures Repository.FindByCriteria([order], None, Some(productId)) == [order]
  {
    assert Repository.Matches(order, None, Some(productId));
    Repository.FindByCriteriaIsFilter([order], None, Some(productId));
    assert [order][1..] == [];
    assert Repository.Filter([order], None, Some(productId)) == [order];
  }

  /** Of two items, only the first has the asked product id. */
  lemma OnlyFirstItemMatches(a: ProductInfo, b: ProductInfo, productId: string)
    requires a.productId == productId && b.productId != productId
    ensures MatchingProducts([a, b], productId) == [a]
  {
    assert [a, b][1..] == [b] && [b][1..] == [];
    assert MatchingProducts([a, b], productId) == [a] + MatchingProducts([b], productId);
    assert MatchingProducts([b], productId) == [] + MatchingProducts([], productId);
  }

  // ---------------------------------------------------------------------------
  // The service

  class OrderService {
    const customerClient: CustomerServiceClient
    const productClient: ProductServiceClient

    /** The repository's table, keyed by order id. */
    var store: map<string, EnrichedOrder>
    /** The `orders` cache. */
    var cache: map<CacheKey, CacheEntry>
    /** Every request sent to the customer and product services, in order. */
    var upstreamCalls: seq<Request>
    /** Every repository call made, in order. */
    var storeCalls: seq<StoreCall>

    ghost predicate Valid()
      reads this
    {
      && Repository.Keyed(store)
      && forall key :: key in cache ==> Coherent(store, key, cache[key])
    }

    constructor (customerClient: CustomerServiceClient, productClient: ProductServiceClient,
                 store: map<string, EnrichedOrder>)
      requires Repository.Keyed(store)
      ensures Valid()
      ensures this.customerClient == customerClient && this.productClient == productClient
      ensures this.store == store && cache == map[] && upstreamCalls == [] && storeCalls == []
    {
      this.customerClient := customerClient;
      this.productClient := productClient;
      this.store := store;
      cache := map[];
      upstreamCalls := [];
      storeCalls := [];
    }

    /**
      `createOrder`: fetch the customer, then each product in order, stopping
      at the first failure, whose error is returned unchanged with the store
      and the cache untouched. Otherwise save the mapped order exactly once,
      return its view and clear the whole cache.
     */
    method CreateOrder(request: OrderRequest) returns (r: Result<EnrichedOrderResponse>)
      requires Valid()
      modifies this
      ensures Valid()
      ensures var customer := GetCustomerById(customerClient, request.customerId);
        var fetched := FetchProducts(productClient, request.productIds);
        && (customer.Failure? ==>
              && r == Failure(customer.error)
              && upstreamCalls == old(upstreamCalls) + [CustomerRequest(customerClient, request.customerId)])
        && (customer.Success? ==>
              upstreamCalls == old(upstreamCalls) + [CustomerRequest(customerClient, request.customerId)]
                               + ProductRequestsSent(productClient, request.productIds))
        && (customer.Success? && fetched.Failure? ==> r == Failure(fetched.error))
        && (r.Failure? ==> store == old(store) && cache == old(cache) && storeCalls == old(storeCalls))
        && (customer.Success? && fetched.Success? ==>
              var order := Mapper.ToEntity(request, customer.value, fetched.value);
              && r == Success(Mapper.ToApi(order))
              && store == Repository.Save(old(store), order)
              && storeCalls == old(storeCalls) + [SaveCall(order)]
              && cache == map[])
    {
      upstreamCalls := upstreamCalls + [CustomerRequest(customerClient, request.customerId)];
      var customer := GetCustomerById(customerClient, request.customerId);
      if customer.Failure? {
        return Failure(customer.error);
      }
      var fetched := FetchProductsInOrder(request.productIds);
      if fetched.Failure? {
        return Failure(fetched.error);
      }
      var order := Mapper.ToEntity(request, customer.value, fetched.value);
      store := Repository.Save(store, order);
      storeCalls := storeCalls + [SaveCall(order)];
      r := Success(Mapper.ToApi(order));
      cache := map[];
    }

    /**
      The stream of product fetches: one request per id, in order, stopping at
      the first failure; nothing but the request log changes.
     */
    method FetchProductsInOrder(ids: seq<string>) returns (r: Result<seq<Product>>)
      modifies this`upstreamCalls
      ensures r == FetchProducts(productClient, ids)
      ensures upstreamCalls == old(upstreamCalls) + ProductRequestsSent(productClient, ids)
    {
      var products: seq<Product> := [];
      var i := 0;
      while i < |ids|
        invariant i <= LeadingSuccesses(productClient, ids)
        invariant |products| == i
        invariant forall j :: 0 <= j < i ==> GetProductById(productClient, ids[j]) == Success(products[j])
        invariant upstreamCalls == old(upstreamCalls) + RequestsFor(productClient, ids[..i])
      {
        upstreamCalls := upstreamCalls + [ProductRequest(productClient, ids[i])];
        assert RequestsFor(productClient, ids[..i + 1])
            == RequestsFor(productClient, ids[..i]) + [ProductRequest(productClient, ids[i])];
        var product := GetProductById(productClient, ids[i]);
        if product.Failure? {
          assert i == LeadingSuccesses(productClient, ids);
          return Failure(product.error);
        }
        products := products + [product.value];
        i := i + 1;
      }
      assert ids[..i] == ids;
      assert products == FetchProducts(productClient, ids).value;
      r := Success(products);
    }

    /**
      `getOrderById`: the stored order's view or nothing, whether it comes from
      the cache or the store. A miss asks the store once and caches the answer,
      absent included; a hit leaves the store untouched.
     */
    method GetOrderById(orderId: string) returns (found: Option<EnrichedOrderResponse>)
      requires Valid()
      modifies this
      ensures Valid()
      ensures found == LookupView(store, orderId)
      ensures store == old(store) && upstreamCalls == old(upstreamCalls)
      ensures OrderIdKey(orderId) in old(cache) ==> cache == old(cache) && storeCalls == old(storeCalls)
      ensures OrderIdKey(orderId) !in old(cache) ==>
        && cache == old(cache)[OrderIdKey(orderId) := OrderEntry(found)]
        && storeCalls == old(storeCalls) + [FindByIdCall(orderId)]
    {
      var key := OrderIdKey(orderId);
      if key in cache {
        assert Coherent(store, key, cache[key]);
        found := cache[key].found;
        return;
      }
      storeCalls := storeCalls + [FindByIdCall(orderId)];
      match Repository.FindById(store, orderId) {
        case None =>
          found := None;
        case Some(order) =>
          found := Some(Mapper.ToApi(order));
      }
      cache := cache[key := OrderEntry(found)];
    }

    /**
      `getOrders`: a correct listing for the filters, whether it comes from the
      cache or the store. A miss makes one repository call, `findAll` when no
      filter is given and `findByCriteria` otherwise, and caches the answer
      under the argument pair.
     */
    method GetOrders(customerId: Option<string>, productId: Option<string>) returns (views: seq<EnrichedOrderResponse>)
      requires Valid()
      modifies this
      ensures Valid()
      ensures OrdersResult(store, customerId, productId, views)
      ensures store == old(store) && upstreamCalls == old(upstreamCalls)
      ensures OrdersKey(customerId, productId) in old(cache) ==> cache == old(cache) && storeCalls == old(storeCalls)
      ensures OrdersKey(customerId, productId) !in old(cache) ==>
        && cache == old(cache)[OrdersKey(customerId, productId) := OrdersEntry(views)]
        && storeCalls == old(storeCalls)
             + [if customerId.None? && productId.None? then FindAllCall else FindByCriteriaCall(customerId, productId)]
    {
      var key := OrdersKey(customerId, productId);
      if key in cache {
        assert Coherent(store, key, cache[key]);
        views := cache[key].views;
        return;
      }
      var table := Repository.Scan(store);
      if customerId.None? && productId.None? {
        storeCalls := storeCalls + [FindAllCall];
        views := ToApiAll(table);
      } else {
        storeCalls := storeCalls + [FindByCriteriaCall(customerId, productId)];
        var found := Repository.FindByCriteria(table, customerId, productId);
        if productId.Some? {
          found := NarrowProducts(found, productId.value);
        } else {
          assert NarrowAll(found, productId) == found;
        }
        views := ToApiAll(found);
      }
      assert views == OrdersView(table, customerId, productId);
      cache := cache[key := OrdersEntry(views)];
    }
  }

  /**
    Reading an order, creating any order, and reading the first one again:
    when the create succeeds the cache has been cleared, so the second read
    asks the store again and sees the store as it is after the create.
   */
  method ReadCreateRead(service: OrderService, orderId: string, request: OrderRequest)
    returns (first: Option<EnrichedOrderResponse>, created: Result<EnrichedOrderResponse>,
             second: Option<EnrichedOrderResponse>)
    requires service.Valid()
    modifies service
    ensures service.Valid()
    ensures created.Success? ==>
      && second == LookupView(service.store, orderId)
      && |service.storeCalls| > 0 && service.storeCalls[|service.storeCalls| - 1] == FindByIdCall(orderId)
      && service.cache == map[OrderIdKey(orderId) := OrderEntry(second)]
    ensures created.Success? && request.orderId == orderId ==> second.Some? && second.value == created.value
  {
    first := service.GetOrderById(orderId);
    created := service.CreateOrder(request);
    second := service.GetOrderById(orderId);
  }
}
