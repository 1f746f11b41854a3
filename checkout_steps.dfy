/** The checkout progress bar (`CheckoutSteps.jsx`): four links, each
    enabled by its own step flag. A flag is whatever the screen passes: a
    bare attribute passes `true`, an omitted one `undefined` (`None`). */
module CheckoutSteps {
  import opened Wrappers
  import opened Json
  import Routes

  datatype Link = Link(text: string, target: string, disabled: bool)

  const Labels := ["Log In", "Shipping", "Payment", "Place Order"]
  const Targets := [Routes.LoginPath, Routes.CheckoutPath, Routes.PaymentPath, Routes.PlaceOrderPath]

  /** The four links for `step1` … `step4`, in the order they are drawn;
      link `i` is disabled by `!step_i`. */
  function Links(steps: seq<Option<Json>>): (r: seq<Link>)
    requires |steps| == 4
    ensures |r| == 4
    ensures forall i | 0 <= i < 4 :: r[i].text == Labels[i] && r[i].target == Targets[i]
    ensures forall i | 0 <= i < 4 :: r[i].disabled <==> !Truthy(steps[i])
  {
    seq(4, i requires 0 <= i < 4 => Link(Labels[i], Targets[i], !Truthy(steps[i])))
  }

  /** A link's state depends on its own flag only: two flag lists that
      agree at `i` draw the same `i`-th link. */
  lemma OwnFlagOnly(a: seq<Option<Json>>, b: seq<Option<Json>>, i: nat)
    requires |a| == 4 && |b| == 4 && i < 4 && a[i] == b[i]
    ensures Links(a)[i] == Links(b)[i]
  {
  }

  /** Every link leads to a page that exists: log in, the shipping form,
      payment and order review. */
  lemma TargetsRouted()
    ensures Routes.Resolve(Targets[0]) == Some(Routes.LoginScreen)
    ensures Routes.Resolve(Targets[1]) == Some(Routes.ShippingScreen)
    ensures Routes.Resolve(Targets[2]) == Some(Routes.PaymentScreen)
    ensures Routes.Resolve(Targets[3]) == Some(Routes.PlaceOrderScreen)
  {
    Routes.LoginRouted();
    Routes.CheckoutRouted();
    Routes.PaymentRouted();
    Routes.PlaceOrderRouted();
  }

  /** The payment screen passes `step1 step2 step3`: the first three links
      are enabled and "Place Order" is not. */
  lemma OnPaymentScreen()
    ensures var r := Links([Some(JBool(true)), Some(JBool(true)), Some(JBool(true)), None]);
      !r[0].disabled && !r[1].disabled && !r[2].disabled && r[3].disabled
  {
  }
}
