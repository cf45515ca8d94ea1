/**
 * The orders page: the list of the user's orders, the closed status
 * vocabulary with its fallbacks, the four summary figures, and
 * cancellation. Money is in integer cents.
 */
module OrdersPage {
  import opened Wrappers
  import opened Http
  import opened OrdersApi

  const LoginPath: string := "/login"
  const LoadFailed: string := "Error al cargar los pedidos"
  const CancelDone: string := "Pedido cancelado exitosamente"
  const CancelRefused: string := "Error al cancelar el pedido"
  const CancelledName: string := "cancelled"

  /** The five statuses the page knows. */
  datatype Status = Pending | Processing | Shipped | Delivered | Cancelled

  /** The wire name of each status. */
  function StatusName(st: Status): string {
    match st
    case Pending => "pending"
    case Processing => "processing"
    case Shipped => "shipped"
    case Delivered => "delivered"
    case Cancelled => "cancelled"
  }

  /** The known status a wire name denotes, if any. */
  function StatusOf(s: string): (r: Option<Status>)
    ensures r.Some? ==> StatusName(r.value) == s
  {
    if s == "pending" then Some(Pending)
    else if s == "processing" then Some(Processing)
    else if s == "shipped" then Some(Shipped)
    else if s == "delivered" then Some(Delivered)
    else if s == "cancelled" then Some(Cancelled)
    else None
  }

  /** Names and statuses are in one-to-one correspondence. */
  lemma StatusNameRoundTrip(st: Status)
    ensures StatusOf(StatusName(st)) == Some(st)
  {
    match st
    case Pending =>
    case Processing =>
    case Shipped =>
    case Delivered =>
    case Cancelled =>
  }

  const UnknownColor: string := "bg-gray-100 text-gray-800 border-gray-200"
  const UnknownIcon: string := "📦"

  /** `getStatusColor`: the badge classes of a known status, gray otherwise. */
  function StatusColor(status: string): (r: string)
    ensures StatusOf(status).None? <==> r == UnknownColor
  {
    match StatusOf(status)
    case Some(Pending) => "bg-yellow-100 text-yellow-800 border-yellow-200"
    case Some(Processing) => "bg-blue-100 text-blue-800 border-blue-200"
    case Some(Shipped) => "bg-purple-100 text-purple-800 border-purple-200"
    case Some(Delivered) => "bg-green-100 text-green-800 border-green-200"
    case Some(Cancelled) => "bg-red-100 text-red-800 border-red-200"
    case None => UnknownColor
  }

  /** `getStatusText`: the Spanish label of a known status, the raw status otherwise. */
  function StatusText(status: string): (r: string)
    ensures StatusOf(status).None? ==> r == status
    ensures StatusOf(status).Some? ==> r != status
  {
    match StatusOf(status)
    case Some(Pending) => "Pendiente"
    case Some(Processing) => "Procesando"
    case Some(Shipped) => "Enviado"
    case Some(Delivered) => "Entregado"
    case Some(Cancelled) => "Cancelado"
    case None => status
  }

  /** `getStatusIcon`: the icon of a known status, a parcel otherwise. */
  function StatusIcon(status: string): (r: string)
    ensures StatusOf(status).None? <==> r == UnknownIcon
  {
    match StatusOf(status)
    case Some(Pending) => "⏳"
    case Some(Processing) => "🔄"
    case Some(Shipped) => "🚚"
    case Some(Delivered) => "✅"
    case Some(Cancelled) => "❌"
    case None => UnknownIcon
  }

  /** `canCancelOrder`: only pending and processing orders. */
  function CanCancelOrder(o: Order): (ok: bool)
    ensures ok <==> StatusOf(o.status) == Some(Pending) || StatusOf(o.status) == Some(Processing)
  {
    o.status == "pending" || o.status == "processing"
  }

  /** The `map` after a successful cancel: the orders with that id become cancelled. */
  function MarkCancelled(os: seq<Order>, id: string): (r: seq<Order>)
    ensures |r| == |os|
    ensures forall i :: 0 <= i < |os| ==>
              r[i] == if os[i].id == id then os[i].(status := CancelledName) else os[i]
  {
    if os == [] then []
    else [if os[0].id == id then os[0].(status := CancelledName) else os[0]] + MarkCancelled(os[1..], id)
  }

  /** Number of delivered orders: at most the number of orders, and all of them exactly when each is delivered. */
  function DeliveredCount(os: seq<Order>): (n: nat)
    ensures n <= |os|
    ensures n == |os| <==> forall i :: 0 <= i < |os| ==> os[i].status == "delivered"
  {
    if os == [] then 0
    else
      assert forall i :: 1 <= i < |os| ==> os[1..][i - 1] == os[i];
      (if os[0].status == "delivered" then 1 else 0) + DeliveredCount(os[1..])
  }

  /** Number of orders still in process (those that can be cancelled): 0 exactly when none can be. */
  function InProcessCount(os: seq<Order>): (n: nat)
    ensures n <= |os|
    ensures n == 0 <==> forall i :: 0 <= i < |os| ==> !CanCancelOrder(os[i])
  {
    if os == [] then 0
    else
      assert forall i :: 1 <= i < |os| ==> os[1..][i - 1] == os[i];
      (if CanCancelOrder(os[0]) then 1 else 0) + InProcessCount(os[1..])
  }

  /**
   * Total spent: the amounts summed, a missing amount counting as 0 (so 0
   * for no orders and a single order's own amount); never negative for
   * non-negative amounts.
   */
  function TotalSpent(os: seq<Order>): (t: int)
    ensures os == [] ==> t == 0
    ensures |os| == 1 ==> t == os[0].totalAmount.GetOr(0)
    ensures (forall i :: 0 <= i < |os| ==> os[i].totalAmount.GetOr(0) >= 0) ==> t >= 0
  {
    if os == [] then 0
    else
      assert forall i :: 1 <= i < |os| ==> os[1..][i - 1] == os[i];
      os[0].totalAmount.GetOr(0) + TotalSpent(os[1..])
  }

  /** The three figures of a list put together are the sums of the figures of its parts. */
  lemma {:induction false} AggregatesAppend(a: seq<Order>, b: seq<Order>)
    ensures DeliveredCount(a + b) == DeliveredCount(a) + DeliveredCount(b)
    ensures InProcessCount(a + b) == InProcessCount(a) + InProcessCount(b)
    ensures TotalSpent(a + b) == TotalSpent(a) + TotalSpent(b)
  {
    if a == [] {
      assert a + b == b;
    } else {
      assert (a + b)[0] == a[0] && (a + b)[1..] == a[1..] + b;
      AggregatesAppend(a[1..], b);
    }
  }

  /** No order is both delivered and in process, so the two figures never exceed the order count. */
  lemma {:induction false} CountsWithinTotal(os: seq<Order>)
    ensures DeliveredCount(os) + InProcessCount(os) <= |os|
  {
    if os != [] {
      CountsWithinTotal(os[1..]);
    }
  }

  /**
   * Cancelling keeps the list's length and total spent, never adds to the
   * orders in process or delivered, and leaves no matching order cancellable.
   */
  lemma {:induction false} CancelEffect(os: seq<Order>, id: string)
    ensures |MarkCancelled(os, id)| == |os|
    ensures TotalSpent(MarkCancelled(os, id)) == TotalSpent(os)
    ensures InProcessCount(MarkCancelled(os, id)) <= InProcessCount(os)
    ensures DeliveredCount(MarkCancelled(os, id)) <= DeliveredCount(os)
    ensures forall i :: 0 <= i < |os| && os[i].id == id ==> !CanCancelOrder(MarkCancelled(os, id)[i])
  {
    if os != [] {
      CancelEffect(os[1..], id);
      assert MarkCancelled(os, id)[1..] == MarkCancelled(os[1..], id);
    }
  }

  /** Cancelling an id no order has changes nothing. */
  lemma {:induction false} CancelUnknownIsNoOp(os: seq<Order>, id: string)
    requires forall i :: 0 <= i < |os| ==> os[i].id != id
    ensures MarkCancelled(os, id) == os
  {
    if os != [] {
      CancelUnknownIsNoOp(os[1..], id);
    }
  }

  /** The notification a cancellation shows. */
  datatype Toast = SuccessToast(message: string) | ErrorToast(message: string)

  class Page {
    var orders: seq<Order>
    var loading: bool
    var error: Option<string>
    var cancellingOrder: Option<string>

    /** The state before the first fetch. */
    constructor ()
      ensures orders == [] && loading && error == None && cancellingOrder == None
    {
      orders := [];
      loading := true;
      error := None;
      cancellingOrder := None;
    }

    /**
     * `fetchOrders`: a normalised array is stored; any other value becomes
     * the empty list; a failure stores the empty list and the error message.
     */
    method FetchOrders(reply: Reply<OrdersBody>)
      modifies this
      ensures GetUserOrders(reply).Success? ==>
                && orders == (if GetUserOrders(reply).value.OrdersList? then GetUserOrders(reply).value.orders else [])
                && error == None
      ensures GetUserOrders(reply).Failure? ==>
                orders == [] && error == Some(MessageOf(GetUserOrders(reply).error, LoadFailed))
      ensures !loading && cancellingOrder == old(cancellingOrder)
    {
      loading := true;
      error := None;
      var r := GetUserOrders(reply);
      if r.Success? {
        orders := if r.value.OrdersList? then r.value.orders else [];
      } else {
        error := Some(MessageOf(r.error, LoadFailed));
        orders := [];
      }
      loading := false;
    }

    /** The mounting effect: signed-out visitors go to the login page, others fetch their orders. */
    method Open(authenticated: bool, reply: Reply<OrdersBody>) returns (redirect: Option<string>)
      modifies this
      ensures !authenticated ==>
                && redirect == Some(LoginPath)
                && orders == old(orders) && error == old(error) && loading == old(loading)
                && cancellingOrder == old(cancellingOrder)
      ensures authenticated ==> redirect == None && !loading && cancellingOrder == old(cancellingOrder)
      ensures authenticated && GetUserOrders(reply).Success? ==>
                && orders == (if GetUserOrders(reply).value.OrdersList? then GetUserOrders(reply).value.orders else [])
                && error == None
      ensures authenticated && GetUserOrders(reply).Failure? ==>
                orders == [] && error == Some(MessageOf(GetUserOrders(reply).error, LoadFailed))
    {
      if !authenticated {
        return Some(LoginPath);
      }
      redirect := None;
      FetchOrders(reply);
    }

    /**
     * `handleCancelOrder`: nothing is sent unless the user confirms; a
     * successful cancel marks the matching orders cancelled; a failed one
     * leaves the list alone; the in-progress marker is cleared either way.
     */
    method HandleCancelOrder<T>(orderId: string, confirmed: bool, reply: Reply<T>)
      returns (called: bool, toast: Option<Toast>)
      modifies this
      ensures called == confirmed
      ensures !confirmed ==> toast == None && orders == old(orders) && cancellingOrder == old(cancellingOrder)
      ensures confirmed && reply.Ok? ==>
                orders == MarkCancelled(old(orders), orderId) && toast == Some(SuccessToast(CancelDone))
      ensures confirmed && reply.Fail? ==>
                && orders == old(orders)
                && toast == Some(ErrorToast(MessageOf(CancelOrder(reply).error, CancelRefused)))
      ensures confirmed ==> cancellingOrder == None
      ensures error == old(error) && loading == old(loading)
    {
      if !confirmed {
        return false, None;
      }
      called := true;
      cancellingOrder := Some(orderId);
      var r := CancelOrder(reply);
      if r.Success? {
        orders := MarkCancelled(orders, orderId);
        toast := Some(SuccessToast(CancelDone));
      } else {
        toast := Some(ErrorToast(MessageOf(r.error, CancelRefused)));
      }
      cancellingOrder := None;
    }
  }
}
