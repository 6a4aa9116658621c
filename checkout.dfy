/**
 * The checkout page's submit logic: the displayed delivery fee and total, the ordered
 * validation ladder run before anything is sent, and the request body built from the
 * cart and the form.
 */
module Checkout {
  import opened Common
  import opened OrderSchema
  import opened OrderController

  datatype OrderType = Delivery | Local

  function OrderTypeName(t: OrderType): string
  {
    match t
    case Delivery => "delivery"
    case Local => "local"
  }

  /** A cart line as the cart store keeps it (price in cents). */
  datatype CartItem = CartItem(id: string, name: string, price: int, quantity: int)

  datatype Cart = Cart(items: seq<CartItem>, total: int)

  /**
   * The form state; an untouched field is the empty string. The page renders no input
   * for `email`, so on the page as written that field is always empty.
   */
  datatype CheckoutForm = CheckoutForm(
    name: string,
    email: string,
    phone: string,
    street: string,
    number: string,
    complement: string,
    neighborhood: string,
    city: string,
    state: string,
    zipCode: string,
    notes: string)

  /** Why the page refuses to send the order; each shows its own toast. */
  datatype CheckoutError = EmptyCart | MissingRequired | MissingStreet

  function ErrorMessage(e: CheckoutError): string
  {
    match e
    case EmptyCart => "Seu carrinho está vazio!"
    case MissingRequired => "Preencha todos os campos obrigatórios!"
    case MissingStreet => "Preencha o endereço de entrega!"
  }

  /** The fee shown to the customer: 5.00 for delivery, nothing for eating at the restaurant. */
  function DisplayedFee(orderType: OrderType): (fee: int)
    ensures fee >= 0 && (fee == 0 <==> orderType.Local?)
    ensures orderType == Delivery ==> fee == DeliveryFee
  {
    if orderType == Delivery then 500 else 0
  }

  /** The total shown: the cart plus the displayed fee, never less than the cart. */
  function DisplayedTotal(cart: Cart, orderType: OrderType): (total: int)
    ensures total >= cart.total
    ensures orderType == Local ==> total == cart.total
    ensures orderType == Delivery ==> total == cart.total + DeliveryFee
  {
    cart.total + DisplayedFee(orderType)
  }

  function DeliveryAddress(form: CheckoutForm): Address
  {
    Address(Some(form.street), Some(form.number), Some(form.complement), Some(form.neighborhood),
            Some(form.city), Some(form.state), Some(form.zipCode))
  }

  /** Cart lines become request lines: product id and quantity only. */
  function RequestItems(items: seq<CartItem>): seq<RequestItem>
  {
    seq(|items|, i requires 0 <= i < |items| => RequestItem(items[i].id, items[i].quantity))
  }

  /**
   * The submit handler's decision: an empty cart is refused first, then a missing name
   * or phone, then (for delivery only) a missing street; otherwise the request body.
   */
  function Submit(cart: Cart, form: CheckoutForm, orderType: OrderType, paymentMethod: string): (r: Result<OrderRequest, CheckoutError>)
    ensures r.Err? <==> |cart.items| == 0 || form.name == "" || form.phone == "" || (orderType == Delivery && form.street == "")
    ensures |cart.items| == 0 ==> r == Err(EmptyCart)
    ensures |cart.items| > 0 && (form.name == "" || form.phone == "") ==> r == Err(MissingRequired)
    ensures |cart.items| > 0 && form.name != "" && form.phone != "" && orderType == Delivery && form.street == "" ==>
      r == Err(MissingStreet)
    ensures r.Ok? ==>
      && |r.value.items| == |cart.items|
      && (forall i | 0 <= i < |cart.items| ::
            r.value.items[i].product == cart.items[i].id && r.value.items[i].quantity == cart.items[i].quantity)
    ensures r.Ok? ==>
      && r.value.customer.name == form.name
      && r.value.customer.email == form.email
      && r.value.customer.phone == form.phone
      && r.value.orderType == OrderTypeName(orderType)
      && r.value.paymentMethod == paymentMethod
      && r.value.notes == Some(form.notes)
    ensures r.Ok? ==>
      && (orderType == Delivery ==> r.value.customer.address == DeliveryAddress(form) && form.street != "")
      && (orderType == Local ==> r.value.customer.address == NoAddress)
  {
    if |cart.items| == 0 then Err(EmptyCart)
    else if form.name == "" || form.phone == "" then Err(MissingRequired)
    else if orderType == Delivery && form.street == "" then Err(MissingStreet)
    else
      Ok(OrderRequest(
        customer := Customer(
          form.name, form.email, form.phone,
          if orderType == Delivery then DeliveryAddress(form) else NoAddress),
        items := RequestItems(cart.items),
        orderType := OrderTypeName(orderType),
        paymentMethod := paymentMethod,
        notes := Some(form.notes)))
  }

  /**
   * The toast a refused submit shows names the first check that failed: the empty cart,
   * then a missing name or phone, then a missing street on a delivery.
   */
  lemma SubmitToast(cart: Cart, form: CheckoutForm, orderType: OrderType, paymentMethod: string)
    requires Submit(cart, form, orderType, paymentMethod).Err?
    ensures var toast := ErrorMessage(Submit(cart, form, orderType, paymentMethod).error);
      && (toast == "Seu carrinho está vazio!" <==> |cart.items| == 0)
      && (toast == "Preencha todos os campos obrigatórios!" <==>
            |cart.items| > 0 && (form.name == "" || form.phone == ""))
      && (toast == "Preencha o endereço de entrega!" <==>
            |cart.items| > 0 && form.name != "" && form.phone != "" && orderType == Delivery && form.street == "")
  {
  }

  /**
   * The submit handler once the page collects the email the order schema requires and
   * checks it with the other required fields: an empty email is refused like a missing
   * name or phone, and everything else is decided as before.
   */
  function SubmitWithEmail(cart: Cart, form: CheckoutForm, orderType: OrderType, paymentMethod: string): (r: Result<OrderRequest, CheckoutError>)
    ensures r.Err? <==> Submit(cart, form, orderType, paymentMethod).Err? || form.email == ""
    ensures |cart.items| > 0 && form.email == "" ==> r == Err(MissingRequired)
    ensures r.Ok? ==> r == Submit(cart, form, orderType, paymentMethod) && r.value.customer.email != ""
  {
    if |cart.items| > 0 && form.email == "" then Err(MissingRequired)
    else Submit(cart, form, orderType, paymentMethod)
  }
}
