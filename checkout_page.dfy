/**
 * The checkout page: what it renders for a given session and cart, and
 * `handlePlaceOrder`, which checks the delivery form, prepends the new
 * order to the orders store, empties the cart and moves on to the orders page.
 */
module CheckoutPage {
  import opened Prelude
  import opened Cart
  import opened Orders
  import opened Users
  import opened Storage
  import opened OrdersContext

  /** The three choices of the payment selector. */
  datatype PaymentOption = Cash | Card | Online

  /** The option's `value` attribute, which becomes the order's payment method. */
  function PaymentValue(p: PaymentOption): (v: string)
    ensures v in {"cash", "card", "online"}
  {
    match p
    case Cash => "cash"
    case Card => "card"
    case Online => "online"
  }

  /** The delivery form's state cells. */
  datatype CheckoutForm = CheckoutForm(address: string, phone: string, paymentMethod: PaymentOption)

  /** The form as first rendered: empty fields, cash on delivery. */
  const InitialForm := CheckoutForm("", "", Cash)

  /** An order placed from the untouched form would fail its check, and would be paid in cash. */
  lemma InitialFormIsCashAndIncomplete()
    ensures PaymentValue(InitialForm.paymentMethod) == "cash"
    ensures !FormComplete(InitialForm)
  {
  }

  /** What the page shows: a loading notice, nothing, or the form with its Place Order button. */
  datatype View = LoadingView | NothingView | FormView

  /** The form, and with it the Place Order button, appears only for a signed-in user with a non-empty cart. */
  function Render(loading: bool, user: Option<User>, cart: seq<CartItem>): (v: View)
    ensures v == LoadingView <==> loading
    ensures v == FormView <==> !loading && user.Some? && cart != []
  {
    if loading then LoadingView
    else if user.None? || |cart| == 0 then NothingView
    else FormView
  }

  /** The order built from the cart and the form; `id` and `date` stand for the clock readings. */
  function PlacedOrder(cart: seq<CartItem>, form: CheckoutForm, id: string, date: string): (o: Order)
    ensures o.items == cart && o.status == Pending
    ensures o.total == Totals(cart).total && o.total * 10.0 == Subtotal(cart) * 11.0
    ensures o.address == form.address && o.phone == form.phone
    ensures o.paymentMethod == PaymentValue(form.paymentMethod) && o.paymentMethod in {"cash", "card", "online"}
    ensures o.id == id && o.date == date
  {
    Order(id, cart, Totals(cart).total, form.address, form.phone, PaymentValue(form.paymentMethod), Pending, date)
  }

  /** Both delivery fields are filled in; any non-empty text counts. */
  predicate FormComplete(form: CheckoutForm) {
    form.address != "" && form.phone != ""
  }

  /**
   * `handlePlaceOrder`. With an empty address or phone it only alerts and
   * nothing changes. Otherwise exactly one order, holding the cart as it was,
   * is prepended and stored, the cart is emptied, and the router goes to the
   * orders page.
   */
  method HandlePlaceOrder(orders: OrdersProvider, cart: CartStore, form: CheckoutForm,
                          id: string, date: string) returns (effect: Effect)
    requires orders.storage.WellTyped()
    modifies orders, orders.storage, cart
    ensures !FormComplete(form) ==>
              && effect == Alert("Please fill in all required fields")
              && orders.orders == old(orders.orders) && cart.items == old(cart.items)
              && orders.storage.entries == old(orders.storage.entries)
    ensures FormComplete(form) ==>
              && effect == Navigate("/orders")
              && orders.orders == [PlacedOrder(old(cart.items), form, id, date)] + old(orders.orders)
              && cart.items == []
              && orders.storage.entries == old(orders.storage.entries)[OrdersKey := OrdersEntry(orders.orders)]
              && orders.Persisted() && orders.storage.WellTyped()
  {
    if form.address == "" || form.phone == "" {
      effect := Alert("Please fill in all required fields");
      return;
    }
    var order := PlacedOrder(cart.items, form, id, date);
    orders.AddOrder(order);
    cart.ClearCart();
    effect := Navigate("/orders");
  }
}
