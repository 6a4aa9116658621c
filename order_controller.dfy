/**
 * Order creation, status update and cancellation, over an in-memory order store.
 * Creation prices the requested items against a product catalog (snapshotting name
 * and price), adds the fixed delivery fee, and saves the order through the schema's
 * pre-save hook, which assigns the order number from the current order count.
 */
module OrderController {
  import opened Common
  import opened OrderSchema
  import OrderNumber

  /** A catalog entry; price in cents. */
  datatype Product = Product(name: string, price: nat, available: bool)

  /** The product collection, by product id. */
  type Catalog = map<string, Product>

  datatype RequestItem = RequestItem(product: string, quantity: int)

  /**
   * The body of an order-creation request. `orderType` travels with the request
   * but the controller never reads it. A missing `items` array is the empty sequence.
   */
  datatype OrderRequest = OrderRequest(
    customer: Customer,
    items: seq<RequestItem>,
    orderType: string,
    paymentMethod: string,
    notes: Option<string>)

  /** An HTTP reply: `success: true` with a status and data, or `success: false` with a message. */
  datatype Response<T> = Success(status: int, note: Option<string>, data: T) | Failure(status: int, message: string)

  /** The fee the controller always adds: 5.00 in cents. */
  const DeliveryFee: int := 500
  /** 45 minutes in milliseconds. */
  const EstimatedDelay: int := 45 * 60 * 1000

  const EmptyOrderMessage: string := "Pedido deve ter pelo menos um item"
  const CreateFailedMessage: string := "Erro ao criar pedido"
  const CreatedMessage: string := "Pedido criado com sucesso"
  const OrderNotFoundMessage: string := "Pedido não encontrado"
  const UpdateFailedMessage: string := "Erro ao atualizar status"
  const UpdatedMessage: string := "Status atualizado com sucesso"
  const NotCancellableMessage: string := "Pedido não pode ser cancelado"
  const CancelledMessage: string := "Pedido cancelado com sucesso"

  // ---------------------------------------------------------------- pricing

  predicate IsHexDigit(c: char)
  {
    '0' <= c <= '9' || 'a' <= c <= 'f' || 'A' <= c <= 'F'
  }

  /**
   * The product ids `findById` can cast to an ObjectId: 24 hexadecimal digits in either
   * case. Any other id makes the lookup throw a cast error instead of finding nothing.
   */
  predicate WellFormedId(id: string)
  {
    |id| == 24 && forall i | 0 <= i < |id| :: IsHexDigit(id[i])
  }

  function LowerHex(c: char): char
  {
    if 'A' <= c <= 'F' then (c as int + 32) as char else c
  }

  /** The ObjectId a well-formed id denotes, in the lower-case spelling the catalog keys use. */
  function ProductKey(id: string): (k: string)
    ensures |k| == |id|
    ensures forall i | 0 <= i < |k| :: !('A' <= k[i] <= 'F') && (IsHexDigit(id[i]) <==> IsHexDigit(k[i]))
  {
    seq(|id|, i requires 0 <= i < |id| => LowerHex(id[i]))
  }

  /** Why a requested item cannot be ordered. */
  datatype Rejection = MalformedId(id: string) | ProductNotFound(id: string) | ProductUnavailable(name: string)

  /** The item names a product the catalog holds. */
  predicate Known(catalog: Catalog, item: RequestItem)
  {
    WellFormedId(item.product) && ProductKey(item.product) in catalog
  }

  predicate Orderable(catalog: Catalog, item: RequestItem)
  {
    Known(catalog, item) && catalog[ProductKey(item.product)].available
  }

  predicate AllOrderable(catalog: Catalog, items: seq<RequestItem>)
  {
    forall i | 0 <= i < |items| :: Orderable(catalog, items[i])
  }

  /** Item k is the first one that cannot be ordered. */
  predicate FirstRejected(catalog: Catalog, items: seq<RequestItem>, k: int)
  {
    0 <= k < |items| && !Orderable(catalog, items[k]) &&
    forall i | 0 <= i < k :: Orderable(catalog, items[i])
  }

  function RejectionOf(catalog: Catalog, item: RequestItem): Rejection
    requires !Orderable(catalog, item)
  {
    if !WellFormedId(item.product) then MalformedId(item.product)
    else if ProductKey(item.product) !in catalog then ProductNotFound(item.product)
    else ProductUnavailable(catalog[ProductKey(item.product)].name)
  }

  /**
   * A malformed id reaches the controller's catch (500), a missing product is a 404 naming
   * the requested id, an unavailable one a 400 naming the product.
   */
  function RejectionResponse(r: Rejection): (resp: Response<Order>)
    ensures resp.Failure?
    ensures resp.status == 500 <==> r.MalformedId?
    ensures resp.status == 404 <==> r.ProductNotFound?
    ensures resp.status == 400 <==> r.ProductUnavailable?
    ensures r.MalformedId? ==> resp.message == CreateFailedMessage
    ensures r.ProductNotFound? ==> "Produto " + r.id <= resp.message
    ensures r.ProductUnavailable? ==> "Produto " + r.name <= resp.message
  {
    match r
    case MalformedId(_) => Failure(500, CreateFailedMessage)
    case ProductNotFound(id) => Failure(404, "Produto " + id + " não encontrado")
    case ProductUnavailable(name) => Failure(400, "Produto " + name + " não está disponível")
  }

  /** The order line for a requested item: the product's id, name and price copied from the catalog. */
  function Snapshot(catalog: Catalog, item: RequestItem): OrderItem
    requires Known(catalog, item)
  {
    var p := catalog[ProductKey(item.product)];
    OrderItem(ProductKey(item.product), p.name, p.price, item.quantity, p.price * item.quantity)
  }

  /** One line per requested item, in request order. */
  function Snapshots(catalog: Catalog, items: seq<RequestItem>): seq<OrderItem>
    requires forall i | 0 <= i < |items| :: Known(catalog, items[i])
  {
    seq(|items|, i requires 0 <= i < |items| => Snapshot(catalog, items[i]))
  }

  /** The sum of the line subtotals. */
  function ItemsTotal(items: seq<OrderItem>): int
  {
    if items == [] then 0 else ItemsTotal(items[..|items| - 1]) + items[|items| - 1].subtotal
  }

  /** What the customer pays: the lines plus the fixed fee, whatever the order type. */
  function OrderTotal(catalog: Catalog, items: seq<RequestItem>): int
    requires AllOrderable(catalog, items)
  {
    ItemsTotal(Snapshots(catalog, items)) + DeliveryFee
  }

  datatype Priced = Priced(items: seq<OrderItem>, total: int)

  /**
   * The pricing loop of order creation: items are looked up in request order and
   * the first one whose id is malformed, or that is missing or unavailable, stops the loop.
   */
  method PriceItems(catalog: Catalog, items: seq<RequestItem>) returns (r: Result<Priced, Rejection>)
    ensures r.Ok? <==> AllOrderable(catalog, items)
    ensures r.Ok? ==> r.value.items == Snapshots(catalog, items) && r.value.total == ItemsTotal(r.value.items)
    ensures r.Err? ==> exists k :: FirstRejected(catalog, items, k) && r.error == RejectionOf(catalog, items[k])
  {
    var total := 0;
    var orderItems: seq<OrderItem> := [];
    var i := 0;
    while i < |items|
      invariant 0 <= i <= |items|
      invariant forall j | 0 <= j < i :: Orderable(catalog, items[j])
      invariant orderItems == Snapshots(catalog, items[..i])
      invariant total == ItemsTotal(orderItems)
    {
      var item := items[i];
      if !WellFormedId(item.product) {
        assert FirstRejected(catalog, items, i);
        return Err(MalformedId(item.product));
      }
      var key := ProductKey(item.product);
      if key !in catalog {
        assert FirstRejected(catalog, items, i);
        return Err(ProductNotFound(item.product));
      }
      var product := catalog[key];
      if !product.available {
        assert FirstRejected(catalog, items, i);
        return Err(ProductUnavailable(product.name));
      }
      var subtotal := product.price * item.quantity;
      total := total + subtotal;
      var line := OrderItem(key, product.name, product.price, item.quantity, subtotal);
      assert (orderItems + [line])[..|orderItems|] == orderItems;
      orderItems := orderItems + [line];
      i := i + 1;
    }
    assert items[..i] == items;
    r := Result.Ok(Priced(orderItems, total));
  }

  /** With every quantity at least 1 and prices non-negative, the lines sum to a non-negative amount. */
  lemma {:induction false} ItemsTotalNonNegative(catalog: Catalog, items: seq<RequestItem>)
    requires AllOrderable(catalog, items)
    requires forall i | 0 <= i < |items| :: items[i].quantity >= 1
    ensures ItemsTotal(Snapshots(catalog, items)) >= 0
    decreases |items|
  {
    if items != [] {
      var init := items[..|items| - 1];
      assert Snapshots(catalog, items)[..|items| - 1] == Snapshots(catalog, init);
      ItemsTotalNonNegative(catalog, init);
      var last := Snapshot(catalog, items[|items| - 1]);
      assert last.subtotal == last.price * last.quantity;
    }
  }

  /** The lines keep the requested quantities, so the schema's minimum holds of both or of neither. */
  lemma SnapshotQuantities(catalog: Catalog, items: seq<RequestItem>)
    requires AllOrderable(catalog, items)
    ensures QuantitiesValid(Snapshots(catalog, items)) <==> forall i | 0 <= i < |items| :: items[i].quantity >= 1
    ensures QuantitiesValid(Snapshots(catalog, items)) ==> ItemsTotal(Snapshots(catalog, items)) >= 0
  {
    var lines := Snapshots(catalog, items);
    assert forall i | 0 <= i < |items| :: lines[i].quantity == items[i].quantity;
    if QuantitiesValid(lines) {
      ItemsTotalNonNegative(catalog, items);
    }
  }

  /** Everything the schema needs of a request beyond the catalog checks. */
  predicate RequestValid(req: OrderRequest)
  {
    && CustomerValid(req.customer)
    && ParsePaymentMethod(req.paymentMethod).Some?
    && forall i | 0 <= i < |req.items| :: req.items[i].quantity >= 1
  }

  /** The requests that create an order. */
  predicate Accepted(catalog: Catalog, req: OrderRequest)
  {
    |req.items| > 0 && AllOrderable(catalog, req.items) && RequestValid(req)
  }

  /**
   * The order created for an accepted request as the count-th order of the store: the
   * document handed to `Order.create`, with the generated number and the schema defaults.
   */
  function NewOrder(count: nat, catalog: Catalog, req: OrderRequest, now: int): (o: Order)
    requires AllOrderable(catalog, req.items)
    requires ParsePaymentMethod(req.paymentMethod).Some?
    ensures o.id == count && o.orderNumber == OrderNumber.Format(count + 1)
    ensures o.customer == req.customer && o.notes == req.notes
    ensures PaymentMethodName(o.paymentMethod) == req.paymentMethod
    ensures |o.items| == |req.items|
    ensures forall i | 0 <= i < |o.items| ::
      && o.items[i].product == ProductKey(req.items[i].product)
      && o.items[i].quantity == req.items[i].quantity
      && o.items[i].subtotal == o.items[i].price * o.items[i].quantity
    ensures o.deliveryFee == DefaultDeliveryFee && o.total == ItemsTotal(o.items) + o.deliveryFee
    ensures o.orderStatus == Pending && o.paymentStatus == PaymentPending
    ensures o.estimatedDeliveryTime - o.createdAt == 45 * 60 * 1000 && o.createdAt == now
    ensures o.deliveredAt.None? && o.cancelledAt.None? && o.cancellationReason.None?
  {
    Order(
      id := count,
      orderNumber := OrderNumber.Format(count + 1),
      customer := req.customer,
      items := Snapshots(catalog, req.items),
      total := OrderTotal(catalog, req.items),
      deliveryFee := DeliveryFee,
      paymentMethod := ParsePaymentMethod(req.paymentMethod).value,
      paymentStatus := DefaultPaymentStatus,
      orderStatus := DefaultOrderStatus,
      estimatedDeliveryTime := now + EstimatedDelay,
      deliveredAt := None,
      cancelledAt := None,
      cancellationReason := None,
      notes := req.notes,
      createdAt := now)
  }

  /** The store's invariant for the order at position i. */
  predicate StoredAt(o: Order, i: nat)
  {
    o.id == i && o.orderNumber == OrderNumber.Format(i + 1) && SchemaValid(o)
  }

  /** In a store built by this controller, no two orders share a number. */
  lemma NumbersDistinct(orders: seq<Order>, i: nat, j: nat)
    requires forall k | 0 <= k < |orders| :: StoredAt(orders[k], k)
    requires i < |orders| && j < |orders| && i != j
    ensures orders[i].orderNumber != orders[j].orderNumber
  {
    if orders[i].orderNumber == orders[j].orderNumber {
      OrderNumber.FormatInjective(i + 1, j + 1);
    }
  }

  /** The number the hook generates next is not yet taken. */
  lemma NextNumberFresh(orders: seq<Order>)
    requires forall k | 0 <= k < |orders| :: StoredAt(orders[k], k)
    ensures forall i | 0 <= i < |orders| :: orders[i].orderNumber != OrderNumber.Format(|orders| + 1)
  {
    forall i | 0 <= i < |orders|
      ensures orders[i].orderNumber != OrderNumber.Format(|orders| + 1)
    {
      if orders[i].orderNumber == OrderNumber.Format(|orders| + 1) {
        OrderNumber.FormatInjective(i + 1, |orders| + 1);
      }
    }
  }

  /** The order collection, one order per successful creation, never deleted. */
  class OrderStore {
    var orders: seq<Order>

    ghost predicate Valid()
      reads this
    {
      forall i | 0 <= i < |orders| :: StoredAt(orders[i], i)
    }

    constructor ()
      ensures Valid() && orders == []
    {
      orders := [];
    }

    /**
     * The pre-save hook: a document without a number gets "RFL" + (count + 1);
     * a number that is already there is never overwritten.
     */
    method PreSave(o: Order) returns (saved: Order)
      ensures o.orderNumber != "" ==> saved == o
      ensures o.orderNumber == "" ==> saved == o.(orderNumber := OrderNumber.Format(|orders| + 1))
      ensures saved.orderNumber != ""
    {
      saved := o;
      if o.orderNumber == "" {
        var count := |orders|;
        saved := saved.(orderNumber := OrderNumber.Format(count + 1));
      }
    }

    /** Inserting a saved document: it lands at the next position, which keeps the invariant. */
    method Append(o: Order)
      requires Valid() && StoredAt(o, |orders|)
      modifies this
      ensures Valid() && orders == old(orders) + [o]
    {
      orders := orders + [o];
    }

    /** Writing back a saved document at its own position, which keeps the invariant. */
    method Replace(id: nat, o: Order)
      requires Valid() && id < |orders| && StoredAt(o, id)
      modifies this
      ensures Valid() && orders == old(orders)[id := o]
    {
      orders := orders[id := o];
    }

    /**
     * Saving a new document as the schema is written: validation runs before the
     * pre-save hook, so a document without a number never gets past the
     * `required` check on `orderNumber`.
     */
    method SaveAsWritten(o: Order) returns (r: Option<Order>)
      ensures o.orderNumber == "" ==> r == None
      ensures r.Some? <==> SchemaValid(o)
      ensures r.Some? ==> r.value == o
    {
      if !SchemaValid(o) {
        return None;
      }
      var saved := PreSave(o);
      r := Some(saved);
    }

    /** Saving with the hook run before validation: the number is generated, then checked. */
    method Save(o: Order) returns (r: Option<Order>)
      ensures r.Some? <==> CustomerValid(o.customer) && QuantitiesValid(o.items) && o.total >= 0
      ensures r.Some? ==> SchemaValid(r.value)
      ensures r.Some? && o.orderNumber == "" ==> r.value == o.(orderNumber := OrderNumber.Format(|orders| + 1))
      ensures r.Some? && o.orderNumber != "" ==> r.value == o
    {
      var saved := PreSave(o);
      if !SchemaValid(saved) {
        return None;
      }
      r := Some(saved);
    }

    /**
     * `Order.create` for a priced request: the document gets the fee, the payment method and
     * pending statuses, is saved (hook, then validation) and, if valid, inserted.
     */
    method CreateDocument(catalog: Catalog, req: OrderRequest, priced: Priced, now: int) returns (r: Option<Order>)
      requires Valid()
      requires AllOrderable(catalog, req.items) && ParsePaymentMethod(req.paymentMethod).Some?
      requires priced.items == Snapshots(catalog, req.items) && priced.total == ItemsTotal(priced.items)
      modifies this
      ensures Valid()
      ensures r.Some? <==> RequestValid(req)
      ensures r.None? ==> orders == old(orders)
      ensures r.Some? ==> r.value == NewOrder(|old(orders)|, catalog, req, now) && orders == old(orders) + [r.value]
      ensures r.Some? ==> forall i | 0 <= i < |old(orders)| :: old(orders)[i].orderNumber != r.value.orderNumber
    {
      var draft := Order(
        id := |orders|,
        orderNumber := "",
        customer := req.customer,
        items := priced.items,
        total := priced.total + DeliveryFee,
        deliveryFee := DeliveryFee,
        paymentMethod := ParsePaymentMethod(req.paymentMethod).value,
        paymentStatus := PaymentPending,
        orderStatus := DefaultOrderStatus,
        estimatedDeliveryTime := now + EstimatedDelay,
        deliveredAt := None,
        cancelledAt := None,
        cancellationReason := None,
        notes := req.notes,
        createdAt := now);
      SnapshotQuantities(catalog, req.items);
      ghost var created := NewOrder(|orders|, catalog, req, now);
      assert draft == created.(orderNumber := "");
      r := Save(draft);
      if r.Some? {
        assert r.value == created;
        NextNumberFresh(orders);
        Append(r.value);
      }
    }

    /**
     * Order creation. An empty item list is a 400; the first item whose id cannot be cast a
     * 500, the first missing product a 404 and the first unavailable one a 400; a document
     * the schema refuses a 500. Saving runs the number hook before validation. Only on success is
     * an order appended, priced from the catalog, with the fee added and both statuses pending.
     */
    method CreateOrder(catalog: Catalog, req: OrderRequest, now: int) returns (r: Response<Order>)
      requires Valid()
      modifies this
      ensures Valid()
      ensures r.Success? <==> Accepted(catalog, req)
      ensures r.Failure? ==> orders == old(orders)
      ensures |req.items| == 0 ==> r == Failure(400, EmptyOrderMessage)
      ensures |req.items| > 0 && !AllOrderable(catalog, req.items) ==>
        exists k :: FirstRejected(catalog, req.items, k) && r == RejectionResponse(RejectionOf(catalog, req.items[k]))
      ensures |req.items| > 0 && AllOrderable(catalog, req.items) && !RequestValid(req) ==>
        r == Failure(500, CreateFailedMessage)
      ensures r.Success? ==>
        && r == Success(201, Some(CreatedMessage), NewOrder(|old(orders)|, catalog, req, now))
        && orders == old(orders) + [r.data]
      ensures r.Success? ==> forall i | 0 <= i < |old(orders)| :: old(orders)[i].orderNumber != r.data.orderNumber
    {
      if |req.items| == 0 {
        return Failure(400, EmptyOrderMessage);
      }
      var priced := PriceItems(catalog, req.items);
      if priced.Err? {
        return RejectionResponse(priced.error);
      }
      var paymentMethod := ParsePaymentMethod(req.paymentMethod);
      if paymentMethod.None? {
        return Failure(500, CreateFailedMessage);
      }
      var saved := CreateDocument(catalog, req, priced.value, now);
      if saved.None? {
        return Failure(500, CreateFailedMessage);
      }
      r := Success(201, Some(CreatedMessage), saved.value);
    }

    /**
     * Status update by order id. An unknown id is a 404; a status outside the enumeration
     * fails validation on save (500) and changes nothing; otherwise the status is overwritten
     * with no transition check, and `deliveredAt` is stamped only for "delivered".
     */
    method UpdateOrderStatus(id: nat, status: string, now: int) returns (r: Response<Order>)
      requires Valid()
      modifies this
      ensures Valid()
      ensures id >= |old(orders)| ==> r == Failure(404, OrderNotFoundMessage) && orders == old(orders)
      ensures id < |old(orders)| && ParseStatus(status).None? ==>
        r == Failure(500, UpdateFailedMessage) && orders == old(orders)
      ensures id < |old(orders)| && ParseStatus(status).Some? ==>
        var o := old(orders)[id];
        && r == Success(200, Some(UpdatedMessage), o.(
             orderStatus := ParseStatus(status).value,
             deliveredAt := if status == "delivered" then Some(now) else o.deliveredAt))
        && orders == old(orders)[id := r.data]
    {
      if id >= |orders| {
        return Failure(404, OrderNotFoundMessage);
      }
      var order := orders[id];
      var newStatus := ParseStatus(status);
      if newStatus.None? {
        return Failure(500, UpdateFailedMessage);
      }
      order := order.(orderStatus := newStatus.value);
      if status == "delivered" {
        order := order.(deliveredAt := Some(now));
      }
      var saved := PreSave(order);
      Replace(id, saved);
      r := Success(200, Some(UpdatedMessage), saved);
    }

    /**
     * Cancellation by order id. An unknown id is a 404; a delivered or already cancelled
     * order is a 400 and is left as it was; any other order becomes cancelled, with the
     * cancellation instant and reason recorded.
     */
    method CancelOrder(id: nat, reason: Option<string>, now: int) returns (r: Response<Order>)
      requires Valid()
      modifies this
      ensures Valid()
      ensures id >= |old(orders)| ==> r == Failure(404, OrderNotFoundMessage) && orders == old(orders)
      ensures id < |old(orders)| && old(orders)[id].orderStatus in {Delivered, Cancelled} ==>
        r == Failure(400, NotCancellableMessage) && orders == old(orders)
      ensures id < |old(orders)| && old(orders)[id].orderStatus !in {Delivered, Cancelled} ==>
        && r == Success(200, Some(CancelledMessage), old(orders)[id].(
             orderStatus := Cancelled, cancelledAt := Some(now), cancellationReason := reason))
        && orders == old(orders)[id := r.data]
    {
      if id >= |orders| {
        return Failure(404, OrderNotFoundMessage);
      }
      var order := orders[id];
      if order.orderStatus in {Delivered, Cancelled} {
        return Failure(400, NotCancellableMessage);
      }
      order := order.(orderStatus := Cancelled, cancelledAt := Some(now), cancellationReason := reason);
      var saved := PreSave(order);
      Replace(id, saved);
      r := Success(200, Some(CancelledMessage), saved);
    }
  }

  /**
   * Every order the controller creates prices each line from the catalog, costs at least
   * the fee, and passes the schema's validation.
   */
  lemma CreatedOrderPricing(count: nat, catalog: Catalog, req: OrderRequest, now: int)
    requires Accepted(catalog, req)
    ensures var o := NewOrder(count, catalog, req, now);
      && (forall i | 0 <= i < |o.items| ::
            && o.items[i].name == catalog[ProductKey(req.items[i].product)].name
            && o.items[i].price == catalog[ProductKey(req.items[i].product)].price
            && catalog[ProductKey(req.items[i].product)].available)
      && o.total >= o.deliveryFee
      && SchemaValid(o)
  {
    ItemsTotalNonNegative(catalog, req.items);
  }
}
