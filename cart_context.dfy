/**
 * The cart provider: a local mirror of the server's cart. Every mutation is a
 * round trip; the mirror takes the server's answer on success and keeps its
 * previous value on failure. The `cartAPI` object it calls is not exported by
 * the cart module, so its calls are oracles with the contract the provider
 * assumes: a reply carrying `{ cart }`, or an axios error.
 */
module CartContext {
  import opened Wrappers
  import opened Http
  import opened CartApi

  /** What the assumed `cartAPI` calls resolve with: `{ cart }`. */
  datatype CartResponse = CartResponse(cart: Option<Cart>)

  /** `{ success, message }`; `message` is absent on the successes that carry none. */
  datatype Outcome = Outcome(success: bool, message: Option<string>)

  const AddedMessage: string := "Producto agregado al carrito"
  const AddFailed: string := "Error al agregar producto"
  const UpdateFailed: string := "Error al actualizar cantidad"
  const RemoveFailed: string := "Error al remover producto"
  const ClearFailed: string := "Error al limpiar carrito"

  /** `error.response?.data?.message || fallback`. */
  function ErrorMessage(e: HttpError, fallback: string): (r: string)
    ensures fallback != "" ==> r != ""
    ensures e.data.Some? && Truthy(e.data.value.message) ==> r == e.data.value.message.value
    ensures !(e.data.Some? && Truthy(e.data.value.message)) ==> r == fallback
  {
    OrDefault(if e.data.Some? then e.data.value.message else None, fallback)
  }

  /** The outcome a failed mutation reports. */
  function Failed(e: HttpError, fallback: string): (r: Outcome)
    ensures !r.success && r.message.Some?
    ensures fallback != "" ==> r.message.value != ""
  {
    Outcome(false, Some(ErrorMessage(e, fallback)))
  }

  /** The mirror after one mutation: the server's cart on success, the previous one on failure. */
  function Step(current: Option<Cart>, reply: Reply<CartResponse>): Option<Cart> {
    if reply.Ok? then reply.data.cart else current
  }

  /** The mirror after a run of add/update/remove calls answered by `replies`, in order. */
  function Mirror(start: Option<Cart>, replies: seq<Reply<CartResponse>>): Option<Cart> {
    if replies == [] then start else Step(Mirror(start, replies[..|replies| - 1]), replies[|replies| - 1])
  }

  /**
   * Round-trip fidelity: after any run of mutations the mirror is the cart
   * the server sent in its last successful answer, and the starting value
   * only when every call failed.
   */
  lemma {:induction false} LastAnswerWins(start: Option<Cart>, replies: seq<Reply<CartResponse>>, k: int)
    requires 0 <= k < |replies| && replies[k].Ok?
    requires forall j :: k < j < |replies| ==> replies[j].Fail?
    ensures Mirror(start, replies) == replies[k].data.cart
  {
    if k < |replies| - 1 {
      LastAnswerWins(start, replies[..|replies| - 1], k);
    }
  }

  lemma {:induction false} AllFailedKeepsStart(start: Option<Cart>, replies: seq<Reply<CartResponse>>)
    requires forall j :: 0 <= j < |replies| ==> replies[j].Fail?
    ensures Mirror(start, replies) == start
  {
    if replies != [] {
      AllFailedKeepsStart(start, replies[..|replies| - 1]);
    }
  }

  class CartProvider {
    var cart: Option<Cart>
    var loading: bool

    constructor ()
      ensures cart == None && !loading
    {
      cart := None;
      loading := false;
    }

    /** `cart?.totalItems || 0`. */
    function GetTotalItems(): (n: int)
      reads this
      ensures cart.None? ==> n == 0
      ensures cart.Some? && cart.value.totalItems.Some? ==> n == cart.value.totalItems.value
      ensures cart.Some? && cart.value.totalItems.None? ==> n == 0
    {
      if cart.Some? && cart.value.totalItems.Some? then cart.value.totalItems.value else 0
    }

    /** `cart?.totalPrice || 0`. */
    function GetTotalPrice(): (n: int)
      reads this
      ensures cart.None? ==> n == 0
      ensures cart.Some? && cart.value.totalPrice.Some? ==> n == cart.value.totalPrice.value
      ensures cart.Some? && cart.value.totalPrice.None? ==> n == 0
    {
      if cart.Some? && cart.value.totalPrice.Some? then cart.value.totalPrice.value else 0
    }

    /** `loadCart`: the server's cart, or none at all on any error; never a stale value. */
    method LoadCart(reply: Reply<CartResponse>)
      modifies this
      ensures cart == if reply.Ok? then reply.data.cart else None
      ensures !loading
    {
      loading := true;
      if reply.Ok? {
        cart := reply.data.cart;
      } else {
        cart := None;
      }
      loading := false;
    }

    /**
     * The effect keyed on the provider's authentication flag: load the cart
     * when it becomes true, drop it when it becomes false.
     */
    method SyncWithAuth(authenticated: bool, reply: Reply<CartResponse>)
      modifies this
      ensures authenticated ==> cart == (if reply.Ok? then reply.data.cart else None) && !loading
      ensures !authenticated ==> cart == None && loading == old(loading)
    {
      if authenticated {
        LoadCart(reply);
      } else {
        cart := None;
      }
    }

    /** The round trip add, update and remove share. */
    method Mutate(reply: Reply<CartResponse>, success: Outcome, fallback: string) returns (r: Outcome)
      modifies this
      ensures reply.Ok? ==> cart == reply.data.cart && r == success
      ensures reply.Fail? ==> cart == old(cart) && r == Failed(reply.error, fallback)
      ensures !loading
    {
      loading := true;
      if reply.Ok? {
        cart := reply.data.cart;
        r := success;
      } else {
        r := Failed(reply.error, fallback);
      }
      loading := false;
    }

    /** `addToCart`: server's cart and a success message, or the old cart and the error. */
    method AddToCart(reply: Reply<CartResponse>) returns (r: Outcome)
      modifies this
      ensures reply.Ok? ==> cart == reply.data.cart && r == Outcome(true, Some(AddedMessage))
      ensures reply.Fail? ==> cart == old(cart) && r == Failed(reply.error, AddFailed)
      ensures !loading
    {
      r := Mutate(reply, Outcome(true, Some(AddedMessage)), AddFailed);
    }

    /** `updateQuantity`: server's cart, or the old cart and the error. */
    method UpdateQuantity(reply: Reply<CartResponse>) returns (r: Outcome)
      modifies this
      ensures reply.Ok? ==> cart == reply.data.cart && r == Outcome(true, None)
      ensures reply.Fail? ==> cart == old(cart) && r == Failed(reply.error, UpdateFailed)
      ensures !loading
    {
      r := Mutate(reply, Outcome(true, None), UpdateFailed);
    }

    /** `removeFromCart`: server's cart, or the old cart and the error. */
    method RemoveFromCart(reply: Reply<CartResponse>) returns (r: Outcome)
      modifies this
      ensures reply.Ok? ==> cart == reply.data.cart && r == Outcome(true, None)
      ensures reply.Fail? ==> cart == old(cart) && r == Failed(reply.error, RemoveFailed)
      ensures !loading
    {
      r := Mutate(reply, Outcome(true, None), RemoveFailed);
    }

    /** `clearCart`: the mirror becomes none (not the server's answer) on success. */
    method ClearCart(reply: Reply<CartResponse>) returns (r: Outcome)
      modifies this
      ensures reply.Ok? ==> cart == None && r == Outcome(true, None)
      ensures reply.Fail? ==> cart == old(cart) && r == Failed(reply.error, ClearFailed)
      ensures !loading
      ensures reply.Ok? ==> GetTotalItems() == 0 && GetTotalPrice() == 0
    {
      loading := true;
      if reply.Ok? {
        cart := None;
        r := Outcome(true, None);
      } else {
        r := Failed(reply.error, ClearFailed);
      }
      loading := false;
    }

    /**
     * A sequence of separate `updateQuantity` calls made by the user one after
     * another (the provider itself has no loop), each a round trip answered by
     * the next element of `replies`.
     */
    method UpdateAll(replies: seq<Reply<CartResponse>>) returns (outcomes: seq<Outcome>)
      modifies this
      ensures cart == Mirror(old(cart), replies)
      ensures |outcomes| == |replies|
      ensures forall i :: 0 <= i < |replies| ==> (outcomes[i].success <==> replies[i].Ok?)
    {
      outcomes := [];
      var i := 0;
      while i < |replies|
        invariant 0 <= i <= |replies|
        invariant cart == Mirror(old(cart), replies[..i])
        invariant |outcomes| == i
        invariant forall j :: 0 <= j < i ==> (outcomes[j].success <==> replies[j].Ok?)
      {
        var r := UpdateQuantity(replies[i]);
        assert replies[..i + 1][..i] == replies[..i];
        outcomes := outcomes + [r];
        i := i + 1;
      }
      assert replies[..|replies|] == replies;
    }
  }
}
