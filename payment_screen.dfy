/** The payment step (`PaymentScreen.jsx`): the order it submits, built
    from the cart and the chosen method, the actions it dispatches, and the
    redirects its effect makes. Dispatched actions are opaque entries; what
    the reducers and `createOrder` do with them is not part of this model. */
module PaymentScreen {
  import opened Wrappers
  import opened Text
  import opened Json
  import opened JsNumber
  import OrderScreen
  import Routes

  /** The method selected when the screen opens. */
  const InitialMethod := "Cash On Delivery"

  /** The fixed shipping fee, in rupees. */
  const ShippingFee := Num(100.0)

  /** `item.price * item.qty`: both read with `Number`, no fallback. */
  function LineValue(item: Json): Num {
    Times(NumberOf(Get(item, "price")), NumberOf(Get(item, "qty")))
  }

  /** `orderData`, as `createOrder` receives it. */
  datatype OrderData = OrderData(
    orderItems: Json, shippingAddress: Json, paymentMethod: string,
    itemsPrice: Num, shippingPrice: Num, taxPrice: Num, totalPrice: Num)

  /** What `submitHandler` dispatches, in order. */
  datatype Dispatch = SavePaymentMethod(paymentMethod: string) | CreateOrder(data: OrderData)

  /** `cartItems.reduce(...)` only runs on an array, and reading `price`
      of a `null` line throws. */
  predicate Reducible(cartItems: Json) {
    cartItems.JArr? && forall i | 0 <= i < |cartItems.items| :: !cartItems.items[i].JNull?
  }

  /** The object literal of `submitHandler`. */
  function BuildOrder(cartItems: Json, shippingAddress: Json, paymentMethod: string): OrderData
    requires cartItems.JArr?
  {
    var items := Sum(cartItems.items, LineValue);
    OrderData(cartItems, shippingAddress, paymentMethod, items, ShippingFee, NumZero, Plus(items, ShippingFee))
  }

  /** `submitHandler`: save the method, then create the order; when the
      reduce throws only the first dispatch has happened. */
  function Submit(cartItems: Json, shippingAddress: Json, paymentMethod: string): (r: seq<Dispatch>)
    ensures 1 <= |r| <= 2 && r[0] == SavePaymentMethod(paymentMethod)
    ensures |r| == 2 <==> Reducible(cartItems)
  {
    if Reducible(cartItems) then
      [SavePaymentMethod(paymentMethod), CreateOrder(BuildOrder(cartItems, shippingAddress, paymentMethod))]
    else [SavePaymentMethod(paymentMethod)]
  }

  /** The order submitted carries the cart's lines, the address and the
      method unchanged, a shipping fee of 100 and no tax, and a total that
      is items + shipping + tax. */
  lemma SubmittedOrder(cartItems: Json, shippingAddress: Json, paymentMethod: string)
    requires Reducible(cartItems)
    ensures var r := Submit(cartItems, shippingAddress, paymentMethod);
      r[1].CreateOrder? &&
      var d := r[1].data;
      d.orderItems == cartItems && d.shippingAddress == shippingAddress && d.paymentMethod == paymentMethod
      && d.shippingPrice == Num(100.0) && d.taxPrice == NumZero
      && d.totalPrice == Plus(Plus(d.itemsPrice, d.shippingPrice), d.taxPrice)
      && (d.itemsPrice.Num? <==> forall i | 0 <= i < |cartItems.items| :: LineValue(cartItems.items[i]).Num?)
  {
    var d := BuildOrder(cartItems, shippingAddress, paymentMethod);
    assert Plus(Plus(d.itemsPrice, ShippingFee), NumZero) == Plus(d.itemsPrice, ShippingFee);
  }

  /** With every price and quantity a non-negative number, the total is at
      least the shipping fee. */
  lemma TotalAtLeastFee(cartItems: Json, shippingAddress: Json, paymentMethod: string)
    requires Reducible(cartItems)
    requires forall i | 0 <= i < |cartItems.items| ::
      var n := LineValue(cartItems.items[i]); n.Num? && n.r >= 0.0
    ensures var d := BuildOrder(cartItems, shippingAddress, paymentMethod);
      d.totalPrice.Num? && d.totalPrice.r >= 100.0
  {
    SumNonNegative(cartItems.items, LineValue);
  }

  /** A cart holding a line without a usable price submits `NaN` as both
      the items price and the total. */
  lemma MissingPricePoisons(cartItems: Json, shippingAddress: Json, paymentMethod: string, k: nat)
    requires Reducible(cartItems) && k < |cartItems.items|
    requires NumberOf(Get(cartItems.items[k], "price")).NaN?
    ensures var d := BuildOrder(cartItems, shippingAddress, paymentMethod);
      d.itemsPrice == NaN && d.totalPrice == NaN
  {
    assert LineValue(cartItems.items[k]) == NaN;
  }

  /** When every line has a non-zero price and a truthy quantity, the items
      price submitted is the items figure the order page shows for the same
      lines. */
  lemma AgreesWithOrderPage(cartItems: Json, order: Json)
    requires cartItems.JArr? && Get(order, "orderItems") == Some(cartItems)
    requires forall i | 0 <= i < |cartItems.items| ::
      NumTruthy(NumberOf(Get(cartItems.items[i], "price"))) && Truthy(Get(cartItems.items[i], "qty"))
    ensures OrderScreen.ItemsPrice(order) == Some(Sum(cartItems.items, LineValue))
  {
    forall i | 0 <= i < |cartItems.items|
      ensures LineValue(cartItems.items[i]) == OrderScreen.LineTotal(cartItems.items[i])
    {
    }
    SumSameTerms(cartItems.items, LineValue, OrderScreen.LineTotal);
  }

  // ---------------------------------------------------------------------
  // The effect's redirects
  // ---------------------------------------------------------------------

  /** The effect's navigations, in order, given the path it sends a
      missing address to; `None` when reading `shippingAddress.address`
      throws on a `null` address. */
  function RedirectsTo(addressPath: string, shippingAddress: Json, success: Option<Json>, order: Option<Json>)
    : (r: Option<seq<string>>)
    ensures r.None? <==> shippingAddress.JNull?
  {
    if shippingAddress.JNull? then None
    else
      var first := if !Truthy(Get(shippingAddress, "address")) then [addressPath] else [];
      var second := if Truthy(success) && Truthy(order) then ["/order/" + JsToString(Get(order.value, "id"))] else [];
      Some(first + second)
  }

  /** The effect as written: a missing address sends the user to
      `/shipping`. */
  function RedirectsAsWritten(shippingAddress: Json, success: Option<Json>, order: Option<Json>): Option<seq<string>> {
    RedirectsTo(Routes.ShippingPath, shippingAddress, success, order)
  }

  /** The effect sending a missing address to `/checkout`, the path that
      shows the shipping form. */
  function Redirects(shippingAddress: Json, success: Option<Json>, order: Option<Json>): Option<seq<string>> {
    RedirectsTo(Routes.CheckoutPath, shippingAddress, success, order)
  }

  /** The address redirect happens exactly when the address is falsy, the
      order redirect exactly when creation succeeded and an order exists,
      and the address redirect comes first. */
  lemma RedirectRules(addressPath: string, shippingAddress: Json, success: Option<Json>, order: Option<Json>)
    requires !shippingAddress.JNull?
    ensures var r := RedirectsTo(addressPath, shippingAddress, success, order).value;
      var missing := !Truthy(Get(shippingAddress, "address"));
      var created := Truthy(success) && Truthy(order);
      |r| == (if missing then 1 else 0) + (if created then 1 else 0)
      && (missing ==> r[0] == addressPath)
      && (created ==> r[|r| - 1] == "/order/" + JsToString(Get(order.value, "id")))
  {
  }

  /** As written, a missing address leads to a path no route shows: the
      page goes blank instead of showing the shipping form. */
  lemma MissingAddressUnrouted(shippingAddress: Json, success: Option<Json>, order: Option<Json>)
    requires !shippingAddress.JNull? && !Truthy(Get(shippingAddress, "address"))
    ensures var r := RedirectsAsWritten(shippingAddress, success, order).value;
      |r| >= 1 && Routes.Resolve(r[0]) == None
  {
    Routes.ShippingUnrouted();
  }

  /** Sent to `/checkout`, a missing address reaches the shipping form. */
  lemma MissingAddressShipping(shippingAddress: Json, success: Option<Json>, order: Option<Json>)
    requires !shippingAddress.JNull? && !Truthy(Get(shippingAddress, "address"))
    ensures var r := Redirects(shippingAddress, success, order).value;
      |r| >= 1 && Routes.Resolve(r[0]) == Some(Routes.ShippingScreen)
  {
    Routes.CheckoutRouted();
  }

  /** An order whose id is a whole number is shown on its own page. */
  lemma CreatedOrderShown(shippingAddress: Json, order: Json, id: nat)
    requires !shippingAddress.JNull? && Truthy(Some(order))
    requires Get(order, "id") == Some(JNum(ShowNat(id)))
    ensures var r := Redirects(shippingAddress, Some(JBool(true)), Some(order)).value;
      |r| >= 1 && Routes.Resolve(r[|r| - 1]) == Some(Routes.OrderScreen)
  {
    var s := JsToString(Get(order, "id"));
    assert s == ShowNat(id);
    Routes.OrderRouted(s);
  }
}
