/**
  Keys of the `orders` cache shared by `getOrderById` and `getOrders`.

  As written, `getOrderById` caches under the order id itself and `getOrders`
  under the string `"customerId=" + customerId + ";productId=" + productId`,
  where a null argument is rendered as `null`. These strings can coincide for
  different calls: `OrdersKeyNullCollision` and `OrdersKeyMeetsOrderId`
  exhibit two such pairs. The service model keys its cache by `CacheKey`
  instead, which keeps the two operations and every argument pair apart.
 */
module Cache {
  import opened Domain

  /** How the key expression renders an argument: a null argument prints as `null`. */
  function Rendered(argument: Option<string>): string
  {
    match argument
    case None => "null"
    case Some(s) => s
  }

  /** The `getOrders` key as written. */
  function OrdersKeyAsWritten(customerId: Option<string>, productId: Option<string>): string
  {
    "customerId=" + Rendered(customerId) + ";productId=" + Rendered(productId)
  }

  /** The `getOrderById` key as written: the order id. */
  function OrderIdKeyAsWritten(orderId: string): string
  {
    orderId
  }

  /** Listing every order and listing the orders of the customer with id "null" share one key. */
  lemma OrdersKeyNullCollision()
    ensures OrdersKeyAsWritten(None, None) == OrdersKeyAsWritten(Some("null"), None)
  {
  }

  /** An order whose id reads like a listing key shares that listing's cache entry. */
  lemma OrdersKeyMeetsOrderId()
    ensures OrderIdKeyAsWritten("customerId=null;productId=null") == OrdersKeyAsWritten(None, None)
  {
  }

  /** The key the service model uses: which operation, with which arguments. */
  datatype CacheKey =
    | OrderIdKey(orderId: string)
    | OrdersKey(customerId: Option<string>, productId: Option<string>)
}
