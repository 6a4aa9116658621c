/**
 * The order record and the constraints its schema places on a stored order:
 * the status, payment-status and payment-method enumerations with their defaults,
 * the required customer fields, the item quantity minimum and the non-negative total.
 * Money is in integer cents; instants are integer milliseconds.
 */
module OrderSchema {
  import opened Common

  datatype OrderStatus = Pending | Confirmed | Preparing | Ready | Delivering | Delivered | Cancelled

  datatype PaymentStatus = PaymentPending | Paid | Failed | Refunded

  datatype PaymentMethod = Card | Pix | Cash

  /** The stored spelling of an order status. */
  function StatusName(s: OrderStatus): string
  {
    match s
    case Pending => "pending"
    case Confirmed => "confirmed"
    case Preparing => "preparing"
    case Ready => "ready"
    case Delivering => "delivering"
    case Delivered => "delivered"
    case Cancelled => "cancelled"
  }

  /** Enumeration check on `orderStatus`: only the seven listed spellings are accepted. */
  function ParseStatus(name: string): (r: Option<OrderStatus>)
    ensures r.Some? ==> StatusName(r.value) == name
    ensures r.None? ==> forall s: OrderStatus :: StatusName(s) != name
  {
    if name == "pending" then Some(Pending)
    else if name == "confirmed" then Some(Confirmed)
    else if name == "preparing" then Some(Preparing)
    else if name == "ready" then Some(Ready)
    else if name == "delivering" then Some(Delivering)
    else if name == "delivered" then Some(Delivered)
    else if name == "cancelled" then Some(Cancelled)
    else None
  }

  /** The stored spelling of a payment method. */
  function PaymentMethodName(m: PaymentMethod): string
  {
    match m
    case Card => "card"
    case Pix => "pix"
    case Cash => "cash"
  }

  /** Enumeration check on the required `paymentMethod`: card, pix or cash. */
  function ParsePaymentMethod(name: string): (r: Option<PaymentMethod>)
    ensures r.Some? ==> PaymentMethodName(r.value) == name
    ensures r.None? ==> forall m: PaymentMethod :: PaymentMethodName(m) != name
  {
    if name == "card" then Some(Card)
    else if name == "pix" then Some(Pix)
    else if name == "cash" then Some(Cash)
    else None
  }

  const DefaultOrderStatus: OrderStatus := Pending
  const DefaultPaymentStatus: PaymentStatus := PaymentPending
  /** 5.00 in cents. */
  const DefaultDeliveryFee: int := 500

  /** Every address field is optional. */
  datatype Address = Address(
    street: Option<string>,
    number: Option<string>,
    complement: Option<string>,
    neighborhood: Option<string>,
    city: Option<string>,
    state: Option<string>,
    zipCode: Option<string>)

  /** The empty address object `{}`. */
  const NoAddress: Address := Address(None, None, None, None, None, None, None)

  /** A missing string field is the empty string. */
  datatype Customer = Customer(name: string, email: string, phone: string, address: Address)

  /** One order line, with the product's name and price copied at creation time. */
  datatype OrderItem = OrderItem(product: string, name: string, price: int, quantity: int, subtotal: int)

  /** An order; `orderNumber == ""` means the number has not been generated yet. */
  datatype Order = Order(
    id: nat,
    orderNumber: string,
    customer: Customer,
    items: seq<OrderItem>,
    total: int,
    deliveryFee: int,
    paymentMethod: PaymentMethod,
    paymentStatus: PaymentStatus,
    orderStatus: OrderStatus,
    estimatedDeliveryTime: int,
    deliveredAt: Option<int>,
    cancelledAt: Option<int>,
    cancellationReason: Option<string>,
    notes: Option<string>,
    createdAt: int)

  /** Customer name, email and phone are required (an empty string fails). */
  predicate CustomerValid(c: Customer)
  {
    c.name != "" && c.email != "" && c.phone != ""
  }

  /** Every item needs a quantity of at least 1. */
  predicate QuantitiesValid(items: seq<OrderItem>)
  {
    forall i | 0 <= i < |items| :: items[i].quantity >= 1
  }

  /** Mongoose's default message for the `required` number, and the schema's own messages. */
  const NumberRequiredMessage: string := "Path `orderNumber` is required."
  const NameRequiredMessage: string := "Nome do cliente é obrigatório"
  const EmailRequiredMessage: string := "Email é obrigatório"
  const PhoneRequiredMessage: string := "Telefone é obrigatório"
  const MinQuantityMessage: string := "Quantidade mínima é 1"
  const NegativeTotalMessage: string := "Total não pode ser negativo"

  /** The positions of the items whose quantity is below the minimum. */
  function BelowMinimum(items: seq<OrderItem>): set<nat>
  {
    set i: nat | i < |items| && items[i].quantity < 1
  }

  /** One message per item whose quantity is below the minimum, in item order. */
  function QuantityMessages(items: seq<OrderItem>): (r: seq<string>)
    ensures |r| == |BelowMinimum(items)| <= |items|
    ensures r == [] <==> QuantitiesValid(items)
    ensures forall i | 0 <= i < |r| :: r[i] == MinQuantityMessage
  {
    if items == [] then
      assert BelowMinimum(items) == {};
      []
    else
      var n := |items| - 1;
      var init := items[..n];
      var rest := QuantityMessages(init);
      var extra: set<nat> := if items[n].quantity < 1 then {n} else {};
      assert BelowMinimum(items) == BelowMinimum(init) + extra;
      assert n !in BelowMinimum(init);
      assert QuantitiesValid(items) <==> QuantitiesValid(init) && items[n].quantity >= 1 by {
        if QuantitiesValid(init) && items[n].quantity >= 1 {
          forall i | 0 <= i < |items| ensures items[i].quantity >= 1 {
            if i < n { assert items[i] == init[i]; }
          }
        }
      }
      rest + if items[n].quantity < 1 then [MinQuantityMessage] else []
  }

  /**
   * The messages validation reports for a document, one per failing path, in schema order;
   * it reports nothing exactly for the documents `SchemaValid` admits.
   */
  function ValidationMessages(o: Order): (r: seq<string>)
    ensures r == [] <==> SchemaValid(o)
    ensures o.orderNumber == "" ==> r[0] == NumberRequiredMessage
  {
    (if o.orderNumber == "" then [NumberRequiredMessage] else [])
    + (if o.customer.name == "" then [NameRequiredMessage] else [])
    + (if o.customer.email == "" then [EmailRequiredMessage] else [])
    + (if o.customer.phone == "" then [PhoneRequiredMessage] else [])
    + QuantityMessages(o.items)
    + (if o.total < 0 then [NegativeTotalMessage] else [])
  }

  /**
   * The schema's validation of a document: a number, the required customer fields,
   * item quantities at least 1 and a non-negative total (the enumerations hold by type).
   */
  predicate SchemaValid(o: Order)
  {
    && o.orderNumber != ""
    && CustomerValid(o.customer)
    && QuantitiesValid(o.items)
    && o.total >= 0
  }

  /** Status and payment method spellings read back to the value they came from. */
  lemma EnumRoundTrips(s: OrderStatus, m: PaymentMethod)
    ensures ParseStatus(StatusName(s)) == Some(s)
    ensures ParsePaymentMethod(PaymentMethodName(m)) == Some(m)
  {
  }
}
