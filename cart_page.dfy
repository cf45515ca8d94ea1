/**
 * The cart page: its own copy of the server's cart (the whole `getCart`
 * body, not the `{ cart }` envelope the provider expects), the guarded
 * mutation handlers, and the order summary. Money is in integer cents.
 */
module CartPage {
  import opened Wrappers
  import opened Http
  import opened CartApi

  const LoginPath: string := "/login"

  /** Free shipping strictly above 100.00; otherwise a 10.00 fee. */
  const FreeShippingAbove: int := 10000
  const ShippingFee: int := 1000

  const UpdateAlert: string := "Error al actualizar la cantidad"
  const RemoveAlert: string := "Error al eliminar el producto"
  const ClearAlert: string := "Error al vaciar el carrito"

  /** What one line adds to the summary: its product's price times its quantity. */
  function LineAmount(l: CartLine): int
    requires l.productId.Some?
  {
    l.productId.value.price * l.quantity
  }

  /**
   * The subtotal as a sum over the lines: each line's amount added to the
   * sum of the rest; None when some line lacks `productId`.
   */
  function Subtotal(items: seq<CartLine>): (r: Option<int>)
    ensures r.Some? ==> WellShaped(items)
    ensures items == [] ==> r == Some(0)
  {
    if items == [] then Some(0)
    else if items[0].productId.None? then None
    else
      match Subtotal(items[1..])
      case None => None
      case Some(rest) => Some(LineAmount(items[0]) + rest)
  }

  /** A single well-shaped line contributes exactly its price times its quantity. */
  lemma SubtotalOfLine(l: CartLine)
    requires l.productId.Some?
    ensures Subtotal([l]) == Some(l.productId.value.price * l.quantity)
  {
    assert [l][1..] == [];
  }

  /**
   * The `reduce` of `calculateTotal` as written: a left fold from the
   * running total `acc`, throwing (None) at the first line without
   * `productId`.
   */
  function Reduce(acc: int, items: seq<CartLine>): Option<int>
    decreases |items|
  {
    if items == [] then Some(acc)
    else if items[0].productId.None? then None
    else Reduce(acc + LineAmount(items[0]), items[1..])
  }

  /** The left fold from `acc` adds `acc` to the sum over the lines, and throws exactly when the sum is undefined. */
  lemma {:induction false} ReduceIsSubtotal(acc: int, items: seq<CartLine>)
    ensures Reduce(acc, items).Some? <==> Subtotal(items).Some?
    ensures Subtotal(items).Some? ==> Reduce(acc, items) == Some(acc + Subtotal(items).value)
    decreases |items|
  {
    if items != [] && items[0].productId.Some? {
      ReduceIsSubtotal(acc + LineAmount(items[0]), items[1..]);
    }
  }

  /** Every line carries its product under `productId`. */
  predicate WellShaped(items: seq<CartLine>) {
    forall i :: 0 <= i < |items| ==> items[i].productId.Some?
  }

  /** The subtotal is defined exactly on well-shaped lines, and is non-negative for non-negative prices and quantities. */
  lemma {:induction false} SubtotalDefined(items: seq<CartLine>)
    ensures Subtotal(items).Some? <==> WellShaped(items)
    ensures WellShaped(items) &&
            (forall i :: 0 <= i < |items| ==> items[i].productId.value.price >= 0 && items[i].quantity >= 0)
            ==> Subtotal(items).value >= 0
  {
    if items != [] {
      SubtotalDefined(items[1..]);
      if WellShaped(items) {
        assert WellShaped(items[1..]);
      } else if items[0].productId.Some? {
        var i :| 0 <= i < |items| && items[i].productId.None?;
        assert items[1..][i - 1].productId.None?;
      }
    }
  }

  /** The subtotal of two runs of lines put together is the sum of theirs. */
  lemma {:induction false} SubtotalAppend(a: seq<CartLine>, b: seq<CartLine>)
    requires Subtotal(a).Some? && Subtotal(b).Some?
    ensures Subtotal(a + b) == Some(Subtotal(a).value + Subtotal(b).value)
  {
    if a == [] {
      assert a + b == b;
    } else {
      assert (a + b)[0] == a[0] && (a + b)[1..] == a[1..] + b;
      SubtotalAppend(a[1..], b);
    }
  }

  /**
   * `calculateTotal`: 0 without a cart or without items, otherwise the
   * `reduce` over the lines, which is their sum of price times quantity.
   */
  function CalculateTotal(cart: Option<Cart>): (r: Option<int>)
    ensures cart.None? || cart.value.items.None? ==> r == Some(0)
    ensures cart.Some? && cart.value.items.Some? ==> (r.Some? <==> WellShaped(cart.value.items.value))
    ensures cart.Some? && cart.value.items.Some? ==> r == Subtotal(cart.value.items.value)
  {
    if cart.None? || cart.value.items.None? then Some(0)
    else
      SubtotalDefined(cart.value.items.value);
      ReduceIsSubtotal(0, cart.value.items.value);
      Reduce(0, cart.value.items.value)
  }

  /** The shipping line of the summary. */
  function Shipping(subtotal: int): (fee: int)
    ensures fee == 0 <==> subtotal > FreeShippingAbove
    ensures fee == 0 || fee == ShippingFee
  {
    if subtotal > FreeShippingAbove then 0 else ShippingFee
  }

  /** The total line: the subtotal plus the shipping line, so equal to the subtotal only past the threshold. */
  function Total(subtotal: int): (t: int)
    ensures t == subtotal + Shipping(subtotal)
    ensures subtotal <= t <= subtotal + ShippingFee
    ensures t == subtotal <==> subtotal > FreeShippingAbove
  {
    subtotal + Shipping(subtotal)
  }

  /** The page shows "empty cart" instead of the summary; the subtotal is then 0. */
  predicate ShowsEmpty(cart: Option<Cart>)
    ensures ShowsEmpty(cart) ==> CalculateTotal(cart) == Some(0)
  {
    cart.None? || cart.value.items.None? || |cart.value.items.value| == 0
  }

  /**
   * The decrement button: disabled while updating or at quantity 1 or
   * below. The increment, remove and clear buttons are disabled only while
   * updating, which `updating ==> disabled` also covers.
   */
  function DecrementDisabled(updating: bool, quantity: int): (disabled: bool)
    ensures !disabled ==> !updating && quantity - 1 >= 1
    ensures updating ==> disabled
    ensures disabled ==> updating || quantity <= 1
  {
    updating || quantity <= 1
  }

  class Page {
    var cart: Option<Cart>
    var loading: bool
    var updating: bool

    /** The initial state: no cart yet, loading. */
    constructor ()
      ensures cart == None && loading && !updating
    {
      cart := None;
      loading := true;
      updating := false;
    }

    /** `fetchCart`: the server's cart on success; a failure is only logged and keeps the prior value. */
    method FetchCart(reply: Reply<Cart>)
      modifies this
      ensures cart == if reply.Ok? then Some(reply.data) else old(cart)
      ensures !loading && updating == old(updating)
    {
      loading := true;
      var r := Call(GetCart, reply);
      if r.Success? {
        cart := Some(r.value);
      }
      loading := false;
    }

    /** The mounting effect: signed-out visitors go to the login page, others fetch the cart. */
    method Open(authenticated: bool, reply: Reply<Cart>) returns (redirect: Option<string>)
      modifies this
      ensures !authenticated ==> redirect == Some(LoginPath) && cart == old(cart) && loading == old(loading)
      ensures authenticated ==> redirect == None && cart == (if reply.Ok? then Some(reply.data) else old(cart)) && !loading
      ensures updating == old(updating)
    {
      if !authenticated {
        redirect := Some(LoginPath);
        return;
      }
      redirect := None;
      FetchCart(reply);
    }

    /** The round trip the three handlers share once they decide to call the server. */
    method Mutate(op: CartOp, reply: Reply<Cart>, failure: string) returns (alert: Option<string>)
      modifies this
      ensures cart == if reply.Ok? then Some(reply.data) else old(cart)
      ensures alert == if reply.Ok? then None else Some(failure)
      ensures !updating && loading == old(loading)
    {
      updating := true;
      var r := Call(op, reply);
      if r.Success? {
        cart := Some(r.value);
        alert := None;
      } else {
        alert := Some(failure);
      }
      updating := false;
    }

    /**
     * `handleUpdateQuantity`: below 1 nothing is sent and nothing changes;
     * otherwise the update is sent and the page takes the server's cart, or
     * keeps its own and alerts on failure.
     */
    method HandleUpdateQuantity(productId: string, newQuantity: int, reply: Reply<Cart>)
      returns (sent: Option<CartRequest>, alert: Option<string>)
      modifies this
      ensures newQuantity < 1 ==>
                sent == None && alert == None && cart == old(cart) && updating == old(updating)
      ensures newQuantity >= 1 ==>
                && sent == Some(RequestOf(UpdateCartItem(productId, newQuantity)))
                && cart == (if reply.Ok? then Some(reply.data) else old(cart))
                && alert == (if reply.Ok? then None else Some(UpdateAlert))
                && !updating
      ensures loading == old(loading)
    {
      if newQuantity < 1 {
        return None, None;
      }
      sent := Some(RequestOf(UpdateCartItem(productId, newQuantity)));
      alert := Mutate(UpdateCartItem(productId, newQuantity), reply, UpdateAlert);
    }

    /** `handleRemoveItem`: nothing is sent unless the visitor confirms. */
    method HandleRemoveItem(productId: string, confirmed: bool, reply: Reply<Cart>)
      returns (sent: Option<CartRequest>, alert: Option<string>)
      modifies this
      ensures !confirmed ==> sent == None && alert == None && cart == old(cart) && updating == old(updating)
      ensures confirmed ==>
                && sent == Some(RequestOf(RemoveFromCart(productId)))
                && cart == (if reply.Ok? then Some(reply.data) else old(cart))
                && alert == (if reply.Ok? then None else Some(RemoveAlert))
                && !updating
      ensures loading == old(loading)
    {
      if !confirmed {
        return None, None;
      }
      sent := Some(RequestOf(RemoveFromCart(productId)));
      alert := Mutate(RemoveFromCart(productId), reply, RemoveAlert);
    }

    /**
     * `handleClearCart`: nothing is sent unless the visitor confirms; on
     * success the page stores whatever the server answered (unlike the
     * provider, which drops its cart).
     */
    method HandleClearCart(confirmed: bool, reply: Reply<Cart>)
      returns (sent: Option<CartRequest>, alert: Option<string>)
      modifies this
      ensures !confirmed ==> sent == None && alert == None && cart == old(cart) && updating == old(updating)
      ensures confirmed ==>
                && sent == Some(RequestOf(ClearCart))
                && cart == (if reply.Ok? then Some(reply.data) else old(cart))
                && alert == (if reply.Ok? then None else Some(ClearAlert))
                && !updating
      ensures loading == old(loading)
    {
      if !confirmed {
        return None, None;
      }
      sent := Some(RequestOf(ClearCart));
      alert := Mutate(ClearCart, reply, ClearAlert);
    }
  }
}
