/**
 * What the checkout page promises the customer, compared with what the order
 * controller does with the request the page sends.
 */
module CheckoutBackend {
  import opened Common
  import opened OrderSchema
  import opened OrderController
  import opened Checkout

  /**
   * The page shows no fee for a local order, but the controller never reads the order
   * type and always adds its fee: when the cart's prices agree with the catalog, a local
   * order is charged 5.00 more than the page displayed, and a delivery order exactly
   * what it displayed. (Stated for the page that collects the email, the only one whose
   * orders are created at all.)
   */
  lemma ChargedVersusDisplayed(
    catalog: Catalog, cart: Cart, form: CheckoutForm, orderType: OrderType, paymentMethod: string,
    count: nat, now: int)
    requires SubmitWithEmail(cart, form, orderType, paymentMethod).Ok?
    requires Accepted(catalog, SubmitWithEmail(cart, form, orderType, paymentMethod).value)
    requires cart.total == ItemsTotal(Snapshots(catalog, SubmitWithEmail(cart, form, orderType, paymentMethod).value.items))
    ensures var o := NewOrder(count, catalog, SubmitWithEmail(cart, form, orderType, paymentMethod).value, now);
      && o.deliveryFee == DeliveryFee
      && (orderType == Delivery ==> o.total == DisplayedTotal(cart, orderType))
      && (orderType == Local ==> o.total == DisplayedTotal(cart, orderType) + DeliveryFee && DisplayedFee(orderType) == 0)
  {
  }

  /**
   * The page as written has no email input, so every form it submits has an empty email,
   * which the order schema requires: no request the page sends is accepted, whatever the
   * catalog, and creation answers with an error and stores nothing.
   */
  lemma PageOrdersNeverAccepted(
    catalog: Catalog, cart: Cart, form: CheckoutForm, orderType: OrderType, paymentMethod: string)
    requires Submit(cart, form, orderType, paymentMethod).Ok?
    requires form.email == ""
    ensures !Accepted(catalog, Submit(cart, form, orderType, paymentMethod).value)
  {
  }

  /**
   * With the email collected and checked, every request the page sends for orderable
   * products, positive quantities and a known payment method is accepted.
   */
  lemma CorrectedCheckoutAccepted(
    catalog: Catalog, cart: Cart, form: CheckoutForm, orderType: OrderType, paymentMethod: string)
    requires SubmitWithEmail(cart, form, orderType, paymentMethod).Ok?
    requires AllOrderable(catalog, RequestItems(cart.items))
    requires forall i | 0 <= i < |cart.items| :: cart.items[i].quantity >= 1
    requires ParsePaymentMethod(paymentMethod).Some?
    ensures Accepted(catalog, SubmitWithEmail(cart, form, orderType, paymentMethod).value)
  {
  }
}
