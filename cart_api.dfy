/**
 * The cart endpoints and the two helpers computed over a fetched cart.
 * Money is in integer cents.
 */
module CartApi {
  import opened Wrappers
  import opened Http

  /** A product snapshot embedded in a cart line. */
  datatype ProductRef = ProductRef(id: string, name: string, price: int, stock: int)

  /**
   * A cart line. The product snapshot is read as `item.product` on the
   * checkout page but as `item.productId` here and on the cart page; either
   * property may be missing, and reading through a missing one throws a
   * TypeError.
   */
  datatype CartLine = CartLine(product: Option<ProductRef>, productId: Option<ProductRef>, quantity: int)

  /** `{ items, totalItems, totalPrice }`, each possibly missing. */
  datatype Cart = Cart(items: Option<seq<CartLine>>, totalItems: Option<int>, totalPrice: Option<int>)

  /** `{ productId, quantity }` as sent to /cart/add and /cart/update. */
  datatype ItemBody = ItemBody(productId: string, quantity: int)

  datatype Verb = Get | Post | Put | Delete

  datatype CartRequest = CartRequest(verb: Verb, path: string, body: Option<ItemBody>)

  /** The five wrappers; `quantity` of Add is None when the caller passes none. */
  datatype CartOp =
    | GetCart
    | AddToCart(productId: string, quantity: Option<int>)
    | UpdateCartItem(productId: string, newQuantity: int)
    | RemoveFromCart(productId: string)
    | ClearCart

  /** The request each wrapper sends. */
  function RequestOf(op: CartOp): (r: CartRequest)
    ensures r.body.Some? <==> op.AddToCart? || op.UpdateCartItem?
    ensures op.AddToCart? ==> r.body == Some(ItemBody(op.productId, op.quantity.GetOr(1)))
    ensures op.UpdateCartItem? ==> r.body == Some(ItemBody(op.productId, op.newQuantity))
    ensures op.RemoveFromCart? ==> r.path == "/cart/remove/" + op.productId
  {
    match op
    case GetCart => CartRequest(Get, "/cart", None)
    case AddToCart(id, q) => CartRequest(Post, "/cart/add", Some(ItemBody(id, q.GetOr(1))))
    case UpdateCartItem(id, q) => CartRequest(Put, "/cart/update", Some(ItemBody(id, q)))
    case RemoveFromCart(id) => CartRequest(Delete, "/cart/remove/" + id, None)
    case ClearCart => CartRequest(Delete, "/cart/clear", None)
  }

  /** The message each wrapper throws when the server sent no error body. */
  function Fallback(op: CartOp): string {
    match op
    case GetCart => "Error al obtener carrito"
    case AddToCart(_, _) => "Error al agregar al carrito"
    case UpdateCartItem(_, _) => "Error al actualizar carrito"
    case RemoveFromCart(_) => "Error al remover del carrito"
    case ClearCart => "Error al limpiar carrito"
  }

  /** What a wrapper resolves with or throws, given the server's reply. */
  function Call(op: CartOp, reply: Reply<Cart>): (r: Result<Cart, ErrorBody>)
    ensures reply.Ok? ==> r == Success(reply.data)
    ensures reply.Fail? && reply.error.data.Some? ==> r == Failure(reply.error.data.value)
    ensures reply.Fail? && reply.error.data.None? ==> r == Failure(ErrorBody(Some(Fallback(op)))) && Fallback(op) != ""
  {
    Settle(reply, Fallback(op))
  }

  /** Sum of the line quantities, as the `reduce` in `getCartItemCount`: 0 for no lines, a single line's own quantity. */
  function SumQuantities(items: seq<CartLine>): (n: int)
    ensures items == [] ==> n == 0
    ensures |items| == 1 ==> n == items[0].quantity
    ensures (forall i :: 0 <= i < |items| ==> items[i].quantity >= 1) ==> n >= |items|
    ensures (forall i :: 0 <= i < |items| ==> items[i].quantity >= 0) ==> n >= 0
  {
    if items == [] then 0 else items[0].quantity + SumQuantities(items[1..])
  }

  /** The count of two carts put together is the sum of their counts. */
  lemma {:induction false} SumQuantitiesAppend(a: seq<CartLine>, b: seq<CartLine>)
    ensures SumQuantities(a + b) == SumQuantities(a) + SumQuantities(b)
  {
    if a != [] {
      assert (a + b)[0] == a[0] && (a + b)[1..] == a[1..] + b;
      SumQuantitiesAppend(a[1..], b);
    } else {
      assert a + b == b;
    }
  }

  /** `getCartItemCount`: total quantity; 0 without items and 0 on any failure. */
  function CartItemCount(reply: Reply<Cart>): (n: int)
    ensures reply.Fail? ==> n == 0
    ensures reply.Ok? && reply.data.items.None? ==> n == 0
    ensures reply.Ok? && reply.data.items.Some? ==> n == SumQuantities(reply.data.items.value)
  {
    match Call(GetCart, reply)
    case Failure(_) => 0
    case Success(cart) => if cart.items.Some? then SumQuantities(cart.items.value) else 0
  }

  /** Line i carries its product under `productId` and it has the given id. */
  predicate MatchesAt(items: seq<CartLine>, id: string, i: int)
    requires 0 <= i < |items|
  {
    items[i].productId.Some? && items[i].productId.value.id == id
  }

  /** Every line before i carries `productId`, so `some` reaches line i without throwing. */
  predicate ShapedBefore(items: seq<CartLine>, i: int)
    requires 0 <= i <= |items|
  {
    forall j :: 0 <= j < i ==> items[j].productId.Some?
  }

  /**
   * `items.some(item => item.productId._id === id)`: stops at the first match;
   * None when it reaches a line without `productId` first (the TypeError).
   */
  function FindProduct(items: seq<CartLine>, id: string): Option<bool> {
    if items == [] then Some(false)
    else if items[0].productId.None? then None
    else if items[0].productId.value.id == id then Some(true)
    else FindProduct(items[1..], id)
  }

  /** The scan finds the product iff a line matches and every line before it is well shaped. */
  lemma {:induction false} FindProductTrue(items: seq<CartLine>, id: string)
    ensures FindProduct(items, id) == Some(true) <==>
            exists i :: 0 <= i < |items| && MatchesAt(items, id, i) && ShapedBefore(items, i)
  {
    if items != [] && items[0].productId.Some? && items[0].productId.value.id != id {
      FindProductTrue(items[1..], id);
      if FindProduct(items, id) == Some(true) {
        var i :| 0 <= i < |items| - 1 && MatchesAt(items[1..], id, i) && ShapedBefore(items[1..], i);
        assert MatchesAt(items, id, i + 1) && ShapedBefore(items, i + 1);
      }
      if exists i :: 0 <= i < |items| && MatchesAt(items, id, i) && ShapedBefore(items, i) {
        var i :| 0 <= i < |items| && MatchesAt(items, id, i) && ShapedBefore(items, i);
        assert i > 0;
        assert MatchesAt(items[1..], id, i - 1) && ShapedBefore(items[1..], i - 1);
      }
    } else if items != [] && items[0].productId.None? {
      assert forall i :: 0 < i < |items| ==> !ShapedBefore(items, i);
    } else if items != [] {
      assert MatchesAt(items, id, 0) && ShapedBefore(items, 0);
    }
  }

  /** `isProductInCart`: false without items, on a TypeError and on any fetch failure. */
  function IsProductInCart(reply: Reply<Cart>, id: string): (found: bool)
    ensures found <==> reply.Ok? && reply.data.items.Some? &&
                       var items := reply.data.items.value;
                       exists i :: 0 <= i < |items| && MatchesAt(items, id, i) && ShapedBefore(items, i)
  {
    match Call(GetCart, reply)
    case Failure(_) => false
    case Success(cart) =>
      if cart.items.None? then false
      else
        FindProductTrue(cart.items.value, id);
        FindProduct(cart.items.value, id).GetOr(false)
  }
}
