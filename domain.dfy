/**
  The values the order enricher passes around: the API request and response
  shapes (`OrderRequest`, `Customer`, `Product`, `EnrichedOrderResponse`) and
  the persisted entity with its embedded snapshots (`EnrichedOrder`,
  `CustomerInfo`, `ProductInfo`).

  Prices are exact decimals in the source (`BigDecimal`); they are `real` here.
  Timestamps (`OffsetDateTime`) are only ever copied, so their components are
  carried along and never inspected.
 */
module Domain {

  datatype Option<T> = None | Some(value: T)

  /** An `OffsetDateTime`: an instant plus the zone offset it was written with. */
  datatype Timestamp = Timestamp(epochSecond: int, nano: nat, offsetSeconds: int)

  /** The incoming order: which customer bought which products, in order. */
  datatype OrderRequest = OrderRequest(
    orderId: string,
    customerId: string,
    productIds: seq<string>,
    timestamp: Timestamp)

  /** A customer record as the customer service sends it, and as responses show it. */
  datatype Customer = Customer(
    id: string,
    name: string,
    street: string,
    zip: string,
    country: string)

  /** A product record as the product service sends it, and as responses show it. */
  datatype Product = Product(
    id: string,
    name: string,
    price: real,
    category: string,
    tags: seq<string>)

  /** The enriched order as the API returns it. */
  datatype EnrichedOrderResponse = EnrichedOrderResponse(
    orderId: string,
    timestamp: Timestamp,
    customer: Customer,
    products: seq<Product>,
    totalPrice: real)

  /** The customer snapshot embedded in a stored order. */
  datatype CustomerInfo = CustomerInfo(
    customerId: string,
    name: string,
    street: string,
    zip: string,
    country: string)

  /** One line item of a stored order: a snapshot of the product at creation time. */
  datatype ProductInfo = ProductInfo(
    productId: string,
    name: string,
    price: real,
    category: string,
    tags: seq<string>)

  /** The persisted order, keyed by `orderId`. */
  datatype EnrichedOrder = EnrichedOrder(
    orderId: string,
    timestamp: Timestamp,
    customer: CustomerInfo,
    products: seq<ProductInfo>,
    totalPrice: real)
}
