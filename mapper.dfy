/**
  `OrderMapper`: the field-by-field translation between the API shapes and the
  persisted entity, and the order total. Every function here only builds new
  values from its arguments.
 */
module Mapper {
  import opened Domain

  function ToCustomerInfo(customer: Customer): CustomerInfo
  {
    CustomerInfo(customer.id, customer.name, customer.street, customer.zip, customer.country)
  }

  function ToProductInfo(product: Product): ProductInfo
  {
    ProductInfo(product.id, product.name, product.price, product.category, product.tags)
  }

  function ToApiCustomer(info: CustomerInfo): Customer
  {
    Customer(info.customerId, info.name, info.street, info.zip, info.country)
  }

  function ToApiProduct(info: ProductInfo): Product
  {
    Product(info.productId, info.name, info.price, info.category, info.tags)
  }

  /** The stream `map(this::toProductInfo)`: one snapshot per product, same order. */
  function Snapshots(products: seq<Product>): seq<ProductInfo>
  {
    seq(|products|, i requires 0 <= i < |products| => ToProductInfo(products[i]))
  }

  /** The stream `map(this::toApiProduct)` over the stored line items. */
  function ApiProducts(infos: seq<ProductInfo>): seq<Product>
  {
    seq(|infos|, i requires 0 <= i < |infos| => ToApiProduct(infos[i]))
  }

  /** `reduce(acc, BigDecimal::add)` over the products' prices: a left fold. */
  function ReducePrices(acc: real, products: seq<Product>): real
    decreases products
  {
    if products == [] then acc else ReducePrices(acc + products[0].price, products[1..])
  }

  /** Builds the entity to persist from the request and the fetched records. */
  function ToEntity(request: OrderRequest, customer: Customer, products: seq<Product>): (r: EnrichedOrder)
    ensures r.orderId == request.orderId && r.timestamp == request.timestamp
    ensures r.customer.customerId == customer.id
    ensures |r.products| == |products|
    ensures forall i :: 0 <= i < |products| ==> r.products[i].productId == products[i].id
    ensures r.totalPrice == Sum(Prices(products))
  {
    ReduceIsSum(0.0, products);
    EnrichedOrder(
      request.orderId,
      request.timestamp,
      ToCustomerInfo(customer),
      Snapshots(products),
      ReducePrices(0.0, products))
  }

  /** Builds the API view of a stored entity; the stored total is passed through. */
  function ToApi(entity: EnrichedOrder): (r: EnrichedOrderResponse)
    ensures r.orderId == entity.orderId && r.timestamp == entity.timestamp
    ensures r.totalPrice == entity.totalPrice
    ensures ToCustomerInfo(r.customer) == entity.customer
    ensures |r.products| == |entity.products|
    ensures forall i :: 0 <= i < |r.products| ==> ToProductInfo(r.products[i]) == entity.products[i]
  {
    EnrichedOrderResponse(
      entity.orderId,
      entity.timestamp,
      ToApiCustomer(entity.customer),
      ApiProducts(entity.products),
      entity.totalPrice)
  }

  // ---------------------------------------------------------------------------
  // Reference definitions for totals

  /** The arithmetic sum of a sequence of amounts. */
  function Sum(amounts: seq<real>): real
  {
    if amounts == [] then 0.0 else amounts[0] + Sum(amounts[1..])
  }

  function Prices(products: seq<Product>): seq<real>
  {
    seq(|products|, i requires 0 <= i < |products| => products[i].price)
  }

  function SnapshotPrices(infos: seq<ProductInfo>): seq<real>
  {
    seq(|infos|, i requires 0 <= i < |infos| => infos[i].price)
  }

  // ---------------------------------------------------------------------------
  // Properties

  /** The left fold from `acc` adds exactly the sum of the prices to `acc`. */
  lemma {:induction false} ReduceIsSum(acc: real, products: seq<Product>)
    ensures ReducePrices(acc, products) == acc + Sum(Prices(products))
    decreases products
  {
    if products != [] {
      ReduceIsSum(acc + products[0].price, products[1..]);
      assert Prices(products)[1..] == Prices(products[1..]);
    }
  }

  /**
    `toEntity` copies the order id and timestamp from the request, takes every
    customer field from the fetched record (the id too, not the request's
    `customerId`), keeps one snapshot per product in order and multiplicity,
    and stores as total the sum of the snapshot prices (zero when there are no
    products).
   */
  lemma ToEntityContents(request: OrderRequest, customer: Customer, products: seq<Product>)
    ensures var e := ToEntity(request, customer, products);
      && e.orderId == request.orderId
      && e.timestamp == request.timestamp
      && e.customer == CustomerInfo(customer.id, customer.name, customer.street, customer.zip, customer.country)
      && |e.products| == |products|
      && (forall i :: 0 <= i < |products| ==>
            e.products[i] == ProductInfo(products[i].id, products[i].name, products[i].price,
                                         products[i].category, products[i].tags))
      && e.totalPrice == Sum(SnapshotPrices(e.products))
      && (products == [] ==> e.totalPrice == 0.0)
  {
    var e := ToEntity(request, customer, products);
    ReduceIsSum(0.0, products);
    assert SnapshotPrices(e.products) == Prices(products);
  }

  /** The stored total does not depend on the order in which the products are listed. */
  lemma TotalIgnoresProductOrder(request: OrderRequest, customer: Customer, ps: seq<Product>, qs: seq<Product>)
    requires multiset(ps) == multiset(qs)
    ensures ToEntity(request, customer, ps).totalPrice == ToEntity(request, customer, qs).totalPrice
  {
    ReduceIsSum(0.0, ps);
    ReduceIsSum(0.0, qs);
    PricesPermutation(ps, qs);
  }

  /** Taking the k-th product out of a list takes exactly its price out of the sum. */
  lemma {:induction false} SumWithout(qs: seq<Product>, k: nat)
    requires k < |qs|
    ensures Sum(Prices(qs)) == qs[k].price + Sum(Prices(qs[..k] + qs[k + 1..]))
    decreases k
  {
    assert Prices(qs)[1..] == Prices(qs[1..]);
    if k == 0 {
      assert qs[..k] + qs[k + 1..] == qs[1..];
    } else {
      SumWithout(qs[1..], k - 1);
      var rest := qs[1..][..k - 1] + qs[1..][k..];
      assert qs[..k] + qs[k + 1..] == [qs[0]] + rest;
      assert Prices([qs[0]] + rest)[1..] == Prices(rest);
    }
  }

  /** Dropping the same element from two permutations of each other leaves permutations. */
  lemma RemoveMatching<T>(xs: seq<T>, ys: seq<T>, k: nat)
    requires multiset(xs) == multiset(ys) && xs != [] && k < |ys| && ys[k] == xs[0]
    ensures multiset(xs[1..]) == multiset(ys[..k] + ys[k + 1..])
  {
    assert xs == [xs[0]] + xs[1..];
    assert ys == ys[..k] + [ys[k]] + ys[k + 1..];
    var rest := ys[..k] + ys[k + 1..];
    assert multiset(ys) == multiset(rest) + multiset{ys[k]};
    assert multiset(xs) == multiset(xs[1..]) + multiset{xs[0]};
    forall x
      ensures multiset(xs[1..])[x] == multiset(rest)[x]
    {
      assert multiset(xs)[x] == multiset(ys)[x];
    }
  }

  lemma {:induction false} PricesPermutation(ps: seq<Product>, qs: seq<Product>)
    requires multiset(ps) == multiset(qs)
    ensures Sum(Prices(ps)) == Sum(Prices(qs))
    decreases |ps|
  {
    if ps == [] {
      assert |qs| == |multiset(qs)| == 0;
      assert Prices(qs) == [];
    } else {
      var p := ps[0];
      assert p in multiset(qs);
      var k :| 0 <= k < |qs| && qs[k] == p;
      var rest := qs[..k] + qs[k + 1..];
      RemoveMatching(ps, qs, k);
      PricesPermutation(ps[1..], rest);
      SumWithout(qs, k);
      assert Prices(ps)[1..] == Prices(ps[1..]);
    }
  }

  /**
    Round trip: the view of a freshly built entity shows the request's order
    id and timestamp, exactly the fetched customer, exactly the fetched
    products in order, and the sum of their prices.
   */
  lemma RoundTrip(request: OrderRequest, customer: Customer, products: seq<Product>)
    ensures ToApi(ToEntity(request, customer, products))
         == EnrichedOrderResponse(request.orderId, request.timestamp, customer, products, Sum(Prices(products)))
  {
    ReduceIsSum(0.0, products);
    assert ApiProducts(Snapshots(products)) == products;
  }

  /** `toApi` drops nothing: two entities with the same view are the same entity. */
  lemma ToApiLosesNothing(e1: EnrichedOrder, e2: EnrichedOrder)
    requires ToApi(e1) == ToApi(e2)
    ensures e1 == e2
  {
    assert ToCustomerInfo(ToApiCustomer(e1.customer)) == e1.customer;
    assert ToCustomerInfo(ToApiCustomer(e2.customer)) == e2.customer;
    assert |e1.products| == |ApiProducts(e1.products)| == |e2.products|;
    forall i | 0 <= i < |e1.products|
      ensures e1.products[i] == e2.products[i]
    {
      assert ToProductInfo(ApiProducts(e1.products)[i]) == e1.products[i];
      assert ToProductInfo(ApiProducts(e2.products)[i]) == e2.products[i];
    }
  }
}
