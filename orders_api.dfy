/**
 * The order endpoints used by the storefront: the shape normalisation of
 * `getUserOrders` and the shared rethrow pattern of `createOrder` and
 * `cancelOrder`. Money is in integer cents.
 */
module OrdersApi {
  import opened Wrappers
  import opened Http

  /** An order as the list shows it: `_id`, `status`, and an optional `totalAmount`. */
  datatype Order = Order(id: string, status: string, totalAmount: Option<int>)

  /**
   * The body `GET /orders` may answer with: an array of orders, an object
   * whose `orders` property may be missing, any other value (a primitive,
   * with its JavaScript truthiness), or `null`.
   */
  datatype OrdersBody =
    | OrdersList(orders: seq<Order>)
    | OrdersEnvelope(field: Option<OrdersBody>)
    | OrdersOther(truthy: bool)
    | OrdersNull

  /** JavaScript truthiness of a body: arrays and objects are truthy, `null` is not. */
  predicate Truthy(b: OrdersBody) {
    match b
    case OrdersList(_) => true
    case OrdersEnvelope(_) => true
    case OrdersOther(t) => t
    case OrdersNull => false
  }

  const CreateFailed: string := "Error al crear orden"
  const ListFailed: string := "Error al obtener órdenes"
  const CancelFailed: string := "Error al cancelar orden"

  /**
   * `getUserOrders`: an array is returned as is; an object whose `orders` is
   * truthy yields that property; anything else is returned unchanged, except
   * `null`, where reading `.orders` throws inside the `try` and the wrapper
   * rethrows its default message.
   */
  function GetUserOrders(reply: Reply<OrdersBody>): (r: Result<OrdersBody, ErrorBody>)
    ensures reply.Fail? ==> r == Settle(reply, ListFailed)
    ensures reply.Ok? && reply.data.OrdersList? ==> r == Success(reply.data)
    ensures reply.Ok? && reply.data.OrdersEnvelope? && reply.data.field.Some? && Truthy(reply.data.field.value) ==>
              r == Success(reply.data.field.value)
    ensures reply.Ok? && reply.data.OrdersEnvelope? && !(reply.data.field.Some? && Truthy(reply.data.field.value)) ==>
              r == Success(reply.data)
    ensures reply.Ok? && reply.data.OrdersOther? ==> r == Success(reply.data)
    ensures reply.Ok? && reply.data.OrdersNull? ==> r == Failure(ErrorBody(Some(ListFailed)))
  {
    match reply
    case Fail(_) => Settle(reply, ListFailed)
    case Ok(data) =>
      match data
      case OrdersList(_) => Success(data)
      case OrdersEnvelope(field) =>
        if field.Some? && Truthy(field.value) then Success(field.value) else Success(data)
      case OrdersOther(_) => Success(data)
      case OrdersNull => Failure(ErrorBody(Some(ListFailed)))
  }

  /** `createOrder`: the server's body, or its error payload, or the default message. */
  function CreateOrder<T>(reply: Reply<T>): (r: Result<T, ErrorBody>)
    ensures r.Success? <==> reply.Ok?
    ensures reply.Ok? ==> r.value == reply.data
    ensures reply.Fail? ==> r.error == reply.error.data.GetOr(ErrorBody(Some(CreateFailed)))
  {
    Settle(reply, CreateFailed)
  }

  /** `cancelOrder`: the server's body, or its error payload, or the default message. */
  function CancelOrder<T>(reply: Reply<T>): (r: Result<T, ErrorBody>)
    ensures r.Success? <==> reply.Ok?
    ensures reply.Ok? ==> r.value == reply.data
    ensures reply.Fail? ==> r.error == reply.error.data.GetOr(ErrorBody(Some(CancelFailed)))
  {
    Settle(reply, CancelFailed)
  }
}
