/**
  `CustomerServiceClient` and `ProductServiceClient`: one GET request to an
  upstream service, and the translation of what comes back into either the
  record or one of two error kinds.

  The HTTP exchange itself is not modelled. Each client carries its base URL
  and `upstream`, the answer the upstream service gives to a request; the
  client looks at that answer exactly once.
 */
module Clients {
  import opened Domain

  /** A GET request: the URL template and the value of its `{id}` variable. */
  datatype Request = Request(urlTemplate: string, id: string)

  /** What a `getForObject` call ends in. */
  datatype Outcome<T> =
    | Received(body: T)          // 2xx with a decoded body
    | HttpError(status: int)     // an error status; RestTemplate raises the status-specific subclass
    | Unreachable                // I/O failure, timeout or an undecodable body

  /** Status 404 Not Found (section 15.5.5 of RFC 9110). */
  const NotFoundStatus: int := 404

  /** `ResourceNotFoundException` and `ServiceUnavailableException`, with their messages. */
  datatype LookupError = ResourceNotFound(message: string) | ServiceUnavailable(message: string)

  datatype Result<T> = Success(value: T) | Failure(error: LookupError)

  /** The try/catch of both clients: 404 is "not found", every other failure "unavailable". */
  function Translate<T>(outcome: Outcome<T>, notFoundMessage: string, unavailableMessage: string): Result<T>
  {
    match outcome
    case Received(body) => Success(body)
    case HttpError(status) =>
      if status == NotFoundStatus then Failure(ResourceNotFound(notFoundMessage))
      else Failure(ServiceUnavailable(unavailableMessage))
    case Unreachable => Failure(ServiceUnavailable(unavailableMessage))
  }

  // ---------------------------------------------------------------------------
  // Customer service

  datatype CustomerServiceClient = CustomerServiceClient(
    customerServiceUrl: string,
    upstream: Request -> Outcome<Customer>)

  function CustomerRequest(client: CustomerServiceClient, customerId: string): Request
  {
    Request(client.customerServiceUrl + "/customers/{id}", customerId)
  }

  function CustomerNotFoundMessage(customerId: string): string
  {
    "Customer with ID '" + customerId + "' not found."
  }

  const CustomerUnavailableMessage: string := "Customer service is currently unavailable."

  /**
    One request to `<customerServiceUrl>/customers/{id}` with the customer id
    as the variable. Success hands back the received customer untouched; a 404
    becomes "not found" naming the id; any other failure becomes "unavailable".
   */
  function GetCustomerById(client: CustomerServiceClient, customerId: string): (r: Result<Customer>)
    ensures var outcome := client.upstream(Request(client.customerServiceUrl + "/customers/{id}", customerId));
      && (r.Success? <==> outcome.Received?)
      && (r.Success? ==> r.value == outcome.body)
      && (r.Failure? && r.error.ResourceNotFound? <==> outcome.HttpError? && outcome.status == 404)
      && (r.Failure? && r.error.ResourceNotFound? ==> r.error.message == CustomerNotFoundMessage(customerId))
      && (r.Failure? && r.error.ServiceUnavailable? ==> r.error.message == CustomerUnavailableMessage)
  {
    Translate(client.upstream(CustomerRequest(client, customerId)),
              CustomerNotFoundMessage(customerId), CustomerUnavailableMessage)
  }

  // ---------------------------------------------------------------------------
  // Product service

  datatype ProductServiceClient = ProductServiceClient(
    productServiceUrl: string,
    upstream: Request -> Outcome<Product>)

  function ProductRequest(client: ProductServiceClient, productId: string): Request
  {
    Request(client.productServiceUrl + "/products/{id}", productId)
  }

  function ProductNotFoundMessage(productId: string): string
  {
    "Product with ID '" + productId + "' not found."
  }

  const ProductUnavailableMessage: string := "Product service is currently unavailable."

  /**
    One request to `<productServiceUrl>/products/{id}` with the product id as
    the variable. Success hands back the received product untouched; a 404
    becomes "not found" naming the id; any other failure becomes "unavailable".
   */
  function GetProductById(client: ProductServiceClient, productId: string): (r: Result<Product>)
    ensures var outcome := client.upstream(Request(client.productServiceUrl + "/products/{id}", productId));
      && (r.Success? <==> outcome.Received?)
      && (r.Success? ==> r.value == outcome.body)
      && (r.Failure? && r.error.ResourceNotFound? <==> outcome.HttpError? && outcome.status == 404)
      && (r.Failure? && r.error.ResourceNotFound? ==> r.error.message == ProductNotFoundMessage(productId))
      && (r.Failure? && r.error.ServiceUnavailable? ==> r.error.message == ProductUnavailableMessage)
  {
    Translate(client.upstream(ProductRequest(client, productId)),
              ProductNotFoundMessage(productId), ProductUnavailableMessage)
  }

  // ---------------------------------------------------------------------------
  // Properties

  /** The id between a fixed prefix and a fixed suffix can be read back. */
  lemma EmbeddedIdDetermined(prefix: string, suffix: string, a: string, b: string)
    requires prefix + a + suffix == prefix + b + suffix
    ensures a == b
  {
    var x := prefix + a + suffix;
    assert |a| == |b|;
    assert a == x[|prefix|..|prefix| + |a|];
  }

  /** A "not found" message names exactly one customer id. */
  lemma CustomerNotFoundNamesTheId(a: string, b: string)
    requires CustomerNotFoundMessage(a) == CustomerNotFoundMessage(b)
    ensures a == b
  {
    EmbeddedIdDetermined("Customer with ID '", "' not found.", a, b);
  }

  /** A "not found" message names exactly one product id. */
  lemma ProductNotFoundNamesTheId(a: string, b: string)
    requires ProductNotFoundMessage(a) == ProductNotFoundMessage(b)
    ensures a == b
  {
    EmbeddedIdDetermined("Product with ID '", "' not found.", a, b);
  }

  /**
    The two error kinds never carry the same message, so a caller can tell a
    missing customer from an unreachable customer service by the message alone.
   */
  lemma CustomerErrorsDistinguishable(customerId: string)
    ensures CustomerNotFoundMessage(customerId) != CustomerUnavailableMessage
  {
    var m := CustomerNotFoundMessage(customerId);
    assert m[9] == 'w';
    assert CustomerUnavailableMessage[9] == 's';
  }

  lemma ProductErrorsDistinguishable(productId: string)
    ensures ProductNotFoundMessage(productId) != ProductUnavailableMessage
  {
    var m := ProductNotFoundMessage(productId);
    assert m[8] == 'w';
    assert ProductUnavailableMessage[8] == 's';
  }
}
