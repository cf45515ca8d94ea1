/**
 * The checkout page: a three-step machine (1 shipping details, 2 payment,
 * 3 confirmation) over a ten-field form, guarded by two blank-field
 * validators; the order payload is built from the provider's cart snapshot.
 * The `ordersAPI` object the page calls is not exported by the orders
 * module, so `createOrder` is an oracle with the contract the page assumes:
 * a reply carrying `{ success, message }`, or an error.
 */
module CheckoutPage {
  import opened Wrappers
  import opened Http
  import opened UserJson
  import opened CartApi
  import opened CartContext

  const LoginPath: string := "/login"
  const CartPath: string := "/cart"
  const CreditCard: string := "credit_card"
  const OrderRejected: string := "Error al crear la orden"
  const ProcessingFailed: string := "Error al procesar el pedido. Intenta de nuevo."

  /**
   * `String.prototype.trim`'s white space: the ECMAScript WhiteSpace set
   * (tab, vertical tab, form feed, the space separators, no-break space,
   * byte order mark) and the LineTerminator set.
   */
  predicate IsSpace(c: char) {
    || c == '\U{9}' || c == '\U{B}' || c == '\U{C}' || c == '\U{20}' || c == '\U{A0}' || c == '\U{FEFF}'
    || c == '\U{1680}' || ('\U{2000}' <= c <= '\U{200A}') || c == '\U{202F}' || c == '\U{205F}' || c == '\U{3000}'
    || c == '\U{A}' || c == '\U{D}' || c == '\U{2028}' || c == '\U{2029}'
  }

  /** `s` with its leading white space removed. */
  function TrimStart(s: string): (r: string)
    ensures |r| <= |s| && r == s[|s| - |r|..]
    ensures r == [] || !IsSpace(r[0])
    ensures forall i :: 0 <= i < |s| - |r| ==> IsSpace(s[i])
  {
    if s != [] && IsSpace(s[0]) then TrimStart(s[1..]) else s
  }

  /** `s` with its trailing white space removed. */
  function TrimEnd(s: string): (r: string)
    ensures |r| <= |s| && r == s[..|r|]
    ensures r == [] || !IsSpace(r[|r| - 1])
    ensures forall i :: |r| <= i < |s| ==> IsSpace(s[i])
  {
    if s != [] && IsSpace(s[|s| - 1]) then TrimEnd(s[..|s| - 1]) else s
  }

  /**
   * `s.trim()`: neither end of the result is white space, and a value with
   * no white space at all is left as it is.
   */
  function Trim(s: string): (r: string)
    ensures |r| <= |s|
    ensures r == [] || (!IsSpace(r[0]) && !IsSpace(r[|r| - 1]))
    ensures (forall i :: 0 <= i < |s| ==> !IsSpace(s[i])) ==> r == s
  {
    TrimEnd(TrimStart(s))
  }

  /** A value is blank exactly when every character of it is white space. */
  lemma TrimEmptyIffAllSpace(s: string)
    ensures Trim(s) == "" <==> forall i :: 0 <= i < |s| ==> IsSpace(s[i])
  {
    var t := TrimStart(s);
    if Trim(s) == "" {
      assert |t| == 0 by {
        if |t| > 0 {
          assert false;
        }
      }
    } else if t != [] {
      assert s[|s| - |t|] == t[0];
    }
  }

  /** The ten named inputs of the form. */
  datatype Field =
    | FullName | Email | Phone | Address | City | PostalCode
    | CardNumber | ExpiryDate | Cvv | CardName

  datatype FormData = FormData(
    fullName: string, email: string, phone: string, address: string, city: string, postalCode: string,
    cardNumber: string, expiryDate: string, cvv: string, cardName: string)

  /** `formData[field]`. */
  function Get(form: FormData, f: Field): string {
    match f
    case FullName => form.fullName
    case Email => form.email
    case Phone => form.phone
    case Address => form.address
    case City => form.city
    case PostalCode => form.postalCode
    case CardNumber => form.cardNumber
    case ExpiryDate => form.expiryDate
    case Cvv => form.cvv
    case CardName => form.cardName
  }

  /** `{ ...prev, [name]: value }`: the named field takes the value, every other field is kept. */
  function Set(form: FormData, f: Field, v: string): (r: FormData)
    ensures Get(r, f) == v
    ensures forall g :: g != f ==> Get(r, g) == Get(form, g)
  {
    match f
    case FullName => form.(fullName := v)
    case Email => form.(email := v)
    case Phone => form.(phone := v)
    case Address => form.(address := v)
    case City => form.(city := v)
    case PostalCode => form.(postalCode := v)
    case CardNumber => form.(cardNumber := v)
    case ExpiryDate => form.(expiryDate := v)
    case Cvv => form.(cvv := v)
    case CardName => form.(cardName := v)
  }

  const ShippingFields: seq<Field> := [FullName, Email, Phone, Address, City, PostalCode]
  const PaymentFields: seq<Field> := [CardNumber, ExpiryDate, Cvv, CardName]

  /** `required.every(field => formData[field].trim() !== "")`. */
  function AllFilled(form: FormData, required: seq<Field>): (ok: bool)
    ensures ok <==> forall i :: 0 <= i < |required| ==> Trim(Get(form, required[i])) != ""
  {
    if required == [] then true
    else Trim(Get(form, required[0])) != "" && AllFilled(form, required[1..])
  }

  /** `validateStep1`: none of the six shipping fields is blank. */
  function ValidateStep1(form: FormData): (ok: bool)
    ensures ok <==> forall f :: f in ShippingFields ==> Trim(Get(form, f)) != ""
  {
    AllFilled(form, ShippingFields)
  }

  /** `validateStep2`: none of the four payment fields is blank. */
  function ValidateStep2(form: FormData): (ok: bool)
    ensures ok <==> forall f :: f in PaymentFields ==> Trim(Get(form, f)) != ""
  {
    AllFilled(form, PaymentFields)
  }

  /** Editing a payment field cannot change whether the shipping step validates, and vice versa. */
  lemma StepsAreIndependent(form: FormData, f: Field, v: string)
    ensures f in PaymentFields ==> ValidateStep1(Set(form, f, v)) == ValidateStep1(form)
    ensures f in ShippingFields ==> ValidateStep2(Set(form, f, v)) == ValidateStep2(form)
  {
    if f in PaymentFields {
      assert forall g :: g in ShippingFields ==> g != f;
    }
    if f in ShippingFields {
      assert forall g :: g in PaymentFields ==> g != f;
    }
  }

  /** The form as the page first builds it: name and e-mail taken from the signed-in user. */
  function InitialForm(user: Option<User>): (form: FormData)
    ensures forall f :: f != FullName && f != Email ==> Get(form, f) == ""
    ensures user.Some? ==> form.fullName == user.value.name && form.email == user.value.email
    ensures user.None? ==> form.fullName == "" && form.email == ""
  {
    var name := if user.Some? then user.value.name else "";
    var email := if user.Some? then user.value.email else "";
    FormData(name, email, "", "", "", "", "", "", "", "")
  }

  /** One line of the order: `{ product, quantity, price }`. */
  datatype OrderLine = OrderLine(product: string, quantity: int, price: int)

  datatype ShippingAddress = ShippingAddress(fullName: string, address: string, city: string, postalCode: string, phone: string)

  datatype OrderPayload = OrderPayload(
    items: seq<OrderLine>, shippingAddress: ShippingAddress, paymentMethod: string, totalAmount: int)

  /** What the assumed `ordersAPI.createOrder` resolves with. */
  datatype OrderResponse = OrderResponse(success: bool, message: Option<string>)

  /** Every cart line carries its product under `product`, as the payload map reads it. */
  predicate CarriesProduct(items: seq<CartLine>) {
    forall i :: 0 <= i < |items| ==> items[i].product.Some?
  }

  /**
   * The `items.map` of the payload: one line per cart line, in order, with
   * the product's id and price; None when a line has no `product` (the
   * TypeError the map throws).
   */
  function BuildLines(items: seq<CartLine>): (r: Option<seq<OrderLine>>)
    ensures r.Some? <==> CarriesProduct(items)
    ensures r.Some? ==> |r.value| == |items|
    ensures r.Some? ==> forall i :: 0 <= i < |items| ==>
              r.value[i] == OrderLine(items[i].product.value.id, items[i].quantity, items[i].product.value.price)
  {
    if items == [] then Some([])
    else if items[0].product.None? then None
    else
      match BuildLines(items[1..])
      case None => None
      case Some(rest) =>
        Some([OrderLine(items[0].product.value.id, items[0].quantity, items[0].product.value.price)] + rest)
  }

  /** Units ordered over the payload lines. */
  function OrderedUnits(lines: seq<OrderLine>): int {
    if lines == [] then 0 else lines[0].quantity + OrderedUnits(lines[1..])
  }

  /** The order asks for exactly as many units as the cart holds. */
  lemma {:induction false} OrderedUnitsMatchCart(items: seq<CartLine>)
    requires CarriesProduct(items)
    ensures OrderedUnits(BuildLines(items).value) == SumQuantities(items)
  {
    if items != [] {
      assert CarriesProduct(items[1..]);
      OrderedUnitsMatchCart(items[1..]);
      assert BuildLines(items).value[1..] == BuildLines(items[1..]).value;
    }
  }

  /** `orderData`: None when the cart, its items or a line's `product` is missing. */
  function BuildOrder(cart: Option<Cart>, form: FormData, totalPrice: int): (r: Option<OrderPayload>)
    ensures r.Some? <==> cart.Some? && cart.value.items.Some? && CarriesProduct(cart.value.items.value)
    ensures r.Some? ==>
              && r.value.items == BuildLines(cart.value.items.value).value
              && r.value.shippingAddress ==
                 ShippingAddress(form.fullName, form.address, form.city, form.postalCode, form.phone)
              && r.value.paymentMethod == CreditCard
              && r.value.totalAmount == totalPrice
  {
    if cart.None? || cart.value.items.None? then None
    else
      match BuildLines(cart.value.items.value)
      case None => None
      case Some(lines) =>
        Some(OrderPayload(lines, ShippingAddress(form.fullName, form.address, form.city, form.postalCode, form.phone),
                          CreditCard, totalPrice))
  }

  /** The entry effect: signed-out visitors go to the login page, an empty cart goes back to the cart page. */
  function EntryRedirect(authenticated: bool, cart: Option<Cart>): (r: Option<string>)
    ensures !authenticated ==> r == Some(LoginPath)
    ensures authenticated ==> (r == None <==> cart.Some? && cart.value.items.Some? && |cart.value.items.value| > 0)
    ensures r.Some? ==> r.value == LoginPath || r.value == CartPath
  {
    if !authenticated then Some(LoginPath)
    else if cart.None? || cart.value.items.None? || |cart.value.items.value| == 0 then Some(CartPath)
    else None
  }

  /** The "continue" / "place order" button is disabled while submitting or while the current step does not validate. */
  function NextDisabled(loading: bool, step: int, form: FormData): (disabled: bool)
    ensures loading ==> disabled
    ensures step == 1 ==> (disabled <==> loading || !ValidateStep1(form))
    ensures step == 2 ==> (disabled <==> loading || !ValidateStep2(form))
  {
    loading || (step == 1 && !ValidateStep1(form)) || (step == 2 && !ValidateStep2(form))
  }

  class Page {
    const carts: CartProvider
    var step: int
    var form: FormData
    var loading: bool

    /** The page as mounted: step 1, not submitting, the form prefilled from the user. */
    constructor (carts: CartProvider, user: Option<User>)
      ensures this.carts == carts
      ensures step == 1 && !loading && form == InitialForm(user)
    {
      this.carts := carts;
      step := 1;
      loading := false;
      form := InitialForm(user);
    }

    /** `handleInputChange`: only the named field changes. */
    method HandleInputChange(f: Field, value: string)
      modifies this
      ensures form == Set(old(form), f, value)
      ensures step == old(step) && loading == old(loading)
    {
      form := Set(form, f, value);
    }

    /** The back button, rendered only on the payment step (the confirmation step has no form). */
    method Back()
      requires step == 2
      modifies this
      ensures step == old(step) - 1 && form == old(form) && loading == old(loading)
    {
      step := step - 1;
    }

    /**
     * `handlePlaceOrder`: builds the payload from the provider's cart and
     * total; a reply with `success` clears the provider's cart and moves to
     * the confirmation step; anything else alerts and stays on this step.
     * The entry effect depends on the cart, so once clearing succeeds it
     * runs again on the emptied cart and sends the visitor to `/cart`: the
     * confirmation step is then left as soon as it is reached.
     */
    method HandlePlaceOrder(orderReply: Reply<OrderResponse>, clearReply: Reply<CartResponse>)
      returns (sent: Option<OrderPayload>, alert: Option<string>)
      modifies this, carts
      ensures sent == BuildOrder(old(carts.cart), old(form), old(carts.GetTotalPrice()))
      ensures sent.Some? && orderReply.Ok? && orderReply.data.success ==>
                && step == 3 && alert == None
                && carts.cart == (if clearReply.Ok? then None else old(carts.cart))
      ensures sent.Some? && orderReply.Ok? && orderReply.data.success && clearReply.Ok? ==>
                EntryRedirect(true, carts.cart) == Some(CartPath)
      ensures sent.Some? && orderReply.Ok? && !orderReply.data.success ==>
                && step == old(step) && carts.cart == old(carts.cart)
                && alert == Some(OrDefault(orderReply.data.message, OrderRejected))
      ensures sent.None? || orderReply.Fail? ==>
                step == old(step) && carts.cart == old(carts.cart) && alert == Some(ProcessingFailed)
      ensures carts.loading == (if sent.Some? && orderReply.Ok? && orderReply.data.success then false
                                else old(carts.loading))
      ensures !loading && form == old(form)
    {
      loading := true;
      sent := BuildOrder(carts.cart, form, carts.GetTotalPrice());
      if sent.None? || orderReply.Fail? {
        alert := Some(ProcessingFailed);
      } else if orderReply.data.success {
        var _ := carts.ClearCart(clearReply);
        step := 3;
        alert := None;
      } else {
        alert := Some(OrDefault(orderReply.data.message, OrderRejected));
      }
      loading := false;
    }

    /**
     * `handleNextStep`: from step 1 to step 2 only when the shipping fields
     * validate; from step 2 the order is placed only when the payment fields
     * validate; otherwise nothing happens.
     */
    method HandleNextStep(orderReply: Reply<OrderResponse>, clearReply: Reply<CartResponse>)
      returns (sent: Option<OrderPayload>, alert: Option<string>)
      modifies this, carts
      ensures old(step) == 1 && ValidateStep1(old(form)) ==>
                && step == 2 && sent == None && alert == None && loading == old(loading)
                && carts.cart == old(carts.cart) && carts.loading == old(carts.loading)
      ensures old(step) == 2 && ValidateStep2(old(form)) ==>
                sent == BuildOrder(old(carts.cart), old(form), old(carts.GetTotalPrice())) && !loading
      ensures old(step) == 2 && ValidateStep2(old(form)) && sent.Some? && orderReply.Ok? && orderReply.data.success ==>
                && step == 3 && alert == None && !carts.loading
                && carts.cart == (if clearReply.Ok? then None else old(carts.cart))
      ensures old(step) == 2 && ValidateStep2(old(form)) && sent.Some? && orderReply.Ok? && !orderReply.data.success ==>
                alert == Some(OrDefault(orderReply.data.message, OrderRejected))
      ensures old(step) == 2 && ValidateStep2(old(form)) && (sent.None? || orderReply.Fail?) ==>
                alert == Some(ProcessingFailed)
      ensures old(step) == 2 && ValidateStep2(old(form)) && !(sent.Some? && orderReply.Ok? && orderReply.data.success) ==>
                step == 2 && carts.cart == old(carts.cart) && carts.loading == old(carts.loading)
      ensures !(old(step) == 1 && ValidateStep1(old(form))) && !(old(step) == 2 && ValidateStep2(old(form))) ==>
                && step == old(step) && sent == None && alert == None && loading == old(loading)
                && carts.cart == old(carts.cart) && carts.loading == old(carts.loading)
      ensures form == old(form)
    {
      sent, alert := None, None;
      if step == 1 && ValidateStep1(form) {
        step := 2;
      } else if step == 2 && ValidateStep2(form) {
        sent, alert := HandlePlaceOrder(orderReply, clearReply);
      }
    }
  }
}
