/**
 * The checkout page: shipping, tax and total for the cart's subtotal, the
 * free-shipping hint, the masked card number on the review step, and the
 * four-step form with its step indicators, Continue / Back buttons and the
 * `orderPlaced` flag that switches to the confirmation view.
 */
module Checkout {
  import opened Wrappers
  import opened Store

  /** Standard shipping is free from this subtotal on. */
  const FreeShippingThreshold: real := 200.0

  // ---------------------------------------------------------------------------
  // Pricing
  // ---------------------------------------------------------------------------

  /** `shippingCost`: express is a flat 15; standard is free from 200 on and 9.99 below. */
  function ShippingCost(shippingMethod: string, subtotal: real): (r: real)
    ensures shippingMethod == "express" ==> r == 15.0
    ensures shippingMethod != "express" ==> (r == 0.0 <==> subtotal >= FreeShippingThreshold)
    ensures shippingMethod != "express" && subtotal < FreeShippingThreshold ==> r == 9.99
    ensures r >= 0.0
  {
    if shippingMethod == "express" then 15.0 else if subtotal >= FreeShippingThreshold then 0.0 else 9.99
  }

  /** `tax`: 8% of the subtotal. */
  function Tax(subtotal: real): (r: real)
    ensures subtotal >= 0.0 ==> 0.0 <= r <= subtotal
    ensures r * 25.0 == subtotal * 2.0
  {
    subtotal * 0.08
  }

  /** `total`: subtotal plus shipping plus tax. */
  function OrderTotal(shippingMethod: string, subtotal: real): (r: real)
    ensures subtotal >= 0.0 ==> r >= subtotal
    ensures r - subtotal - Tax(subtotal) == ShippingCost(shippingMethod, subtotal)
  {
    subtotal + ShippingCost(shippingMethod, subtotal) + Tax(subtotal)
  }

  /** The free-shipping hint: how much more to spend, or `None` once shipping is free. */
  function FreeShippingShortfall(subtotal: real): (r: Option<real>)
    ensures r.None? <==> subtotal >= FreeShippingThreshold
    ensures r.Some? ==> r.value > 0.0 && subtotal + r.value == FreeShippingThreshold
  {
    if subtotal >= FreeShippingThreshold then None else Some(FreeShippingThreshold - subtotal)
  }

  /** The hint and the standard shipping line agree: no shortfall exactly when standard shipping is free. */
  lemma ShortfallMatchesStandardShipping(shippingMethod: string, subtotal: real)
    requires shippingMethod != "express"
    ensures FreeShippingShortfall(subtotal).None? <==> ShippingCost(shippingMethod, subtotal) == 0.0
  {
  }

  /** Crossing the threshold lowers the total: a 199 cart costs more than a 200 cart with standard shipping. */
  lemma TotalDropsAtThreshold()
    ensures OrderTotal("standard", 199.0) > OrderTotal("standard", 200.0)
  {
  }

  /** The summary lines for a subtotal of 1167. */
  lemma SummaryAt1167()
    ensures ShippingCost("standard", 1167.0) == 0.0 && Tax(1167.0) == 93.36
    ensures OrderTotal("standard", 1167.0) == 1260.36 && OrderTotal("express", 1167.0) == 1275.36
  {
  }

  // ---------------------------------------------------------------------------
  // The review step's payment line
  // ---------------------------------------------------------------------------

  /** `cardNumber.slice(-4) || "****"`. */
  function CardSuffix(cardNumber: string): (r: string)
    ensures cardNumber == "" ==> r == "****"
    ensures cardNumber != "" ==> |r| == (if |cardNumber| < 4 then |cardNumber| else 4)
    ensures cardNumber != "" ==> r == cardNumber[|cardNumber| - |r|..]
  {
    if cardNumber == "" then "****"
    else if |cardNumber| <= 4 then cardNumber
    else cardNumber[|cardNumber| - 4..]
  }

  // ---------------------------------------------------------------------------
  // Views and the step machine
  // ---------------------------------------------------------------------------

  /** Which of the page's three views is rendered. */
  datatype View = EmptyBag | Confirmation | Form(step: int)

  /** The empty-bag check comes first, then the confirmation, then the form. */
  function ViewFor(cartEmpty: bool, orderPlaced: bool, step: int): (v: View)
    ensures v == EmptyBag <==> cartEmpty && !orderPlaced
    ensures v == Confirmation <==> orderPlaced
    ensures v.Form? ==> v.step == step
  {
    if cartEmpty && !orderPlaced then EmptyBag
    else if orderPlaced then Confirmation
    else Form(step)
  }

  /** `step` and `orderPlaced`. */
  datatype Flow = Flow(step: int, orderPlaced: bool)

  /** The four steps: Information, Shipping, Payment, Review. */
  predicate ValidStep(step: int)
  {
    1 <= step <= 4
  }

  /** The clickable controls of the form view. */
  datatype Control = StepIndicator(num: int) | Continue | Back | PlaceOrder

  /** Whether a control is on screen: indicators 1..4 always, the buttons on the steps that show them. */
  predicate Shown(f: Flow, cartEmpty: bool, control: Control)
  {
    ViewFor(cartEmpty, f.orderPlaced, f.step).Form? &&
    match control
    case StepIndicator(num) => 1 <= num <= 4
    case Continue => 1 <= f.step <= 3
    case Back => 2 <= f.step <= 4
    case PlaceOrder => f.step == 4
  }

  /**
   * The click handlers: an indicator calls `setStep(num)` only when `num` is
   * before the current step; Continue and Back call `setStep` with the next
   * or previous step's number; Place Order sets `orderPlaced`. A control that
   * is not shown cannot be clicked.
   */
  function OnClick(f: Flow, cartEmpty: bool, control: Control): (g: Flow)
    ensures !Shown(f, cartEmpty, control) ==> g == f
    ensures ValidStep(f.step) ==> ValidStep(g.step)
    ensures control.StepIndicator? ==> g.orderPlaced == f.orderPlaced && g.step <= f.step
    ensures control.StepIndicator? && g.step != f.step ==> g.step == control.num < f.step
    ensures control.StepIndicator? && Shown(f, cartEmpty, control) && control.num < f.step ==> g == f.(step := control.num)
    ensures control == Continue && Shown(f, cartEmpty, control) ==> g == f.(step := f.step + 1)
    ensures control == Back && Shown(f, cartEmpty, control) ==> g == f.(step := f.step - 1)
    ensures control == PlaceOrder && Shown(f, cartEmpty, control) ==> g == f.(orderPlaced := true)
    ensures f.orderPlaced ==> g == f
    ensures g.orderPlaced != f.orderPlaced ==> control == PlaceOrder && f.step == 4 && !cartEmpty && g.step == f.step
  {
    if !Shown(f, cartEmpty, control) then f
    else
      match control
      case StepIndicator(num) => if f.step > num then f.(step := num) else f
      case Continue => f.(step := if f.step == 1 then 2 else if f.step == 2 then 3 else 4)
      case Back => f.(step := if f.step == 2 then 1 else if f.step == 3 then 2 else 3)
      case PlaceOrder => f.(orderPlaced := true)
  }

  /** Clicks in a row, each with whether the cart was empty at that moment. */
  function Run(f: Flow, clicks: seq<(bool, Control)>): (g: Flow)
    decreases |clicks|
  {
    if clicks == [] then f else Run(OnClick(f, clicks[0].0, clicks[0].1), clicks[1..])
  }

  /** Whatever is clicked, the step never leaves 1..4. */
  lemma {:induction false} RunKeepsStep(f: Flow, clicks: seq<(bool, Control)>)
    requires ValidStep(f.step)
    ensures ValidStep(Run(f, clicks).step)
    decreases |clicks|
  {
    if clicks != [] {
      RunKeepsStep(OnClick(f, clicks[0].0, clicks[0].1), clicks[1..]);
    }
  }

  /** Once the order is placed, no click changes anything. */
  lemma {:induction false} PlacedIsFinal(f: Flow, clicks: seq<(bool, Control)>)
    requires f.orderPlaced
    ensures Run(f, clicks) == f
    decreases |clicks|
  {
    if clicks != [] {
      PlacedIsFinal(OnClick(f, clicks[0].0, clicks[0].1), clicks[1..]);
    }
  }

  /** With a non-empty bag, three Continues and Place Order take a fresh form to the placed order. */
  lemma OrderCanBePlaced()
    ensures Run(Flow(1, false), [(false, Continue), (false, Continue), (false, Continue), (false, PlaceOrder)])
            == Flow(4, true)
  {
    var clicks := [(false, Continue), (false, Continue), (false, Continue), (false, PlaceOrder)];
    assert Run(Flow(4, true), clicks[4..]) == Flow(4, true);
    assert Run(Flow(4, false), clicks[3..]) == Flow(4, true);
    assert Run(Flow(3, false), clicks[2..]) == Flow(4, true);
    assert Run(Flow(2, false), clicks[1..]) == Flow(4, true);
  }

  // ---------------------------------------------------------------------------
  // The page's state
  // ---------------------------------------------------------------------------

  /** The checkout page's `step` and `orderPlaced`, over the shared store. */
  class CheckoutPage {
    const store: StoreProvider
    var step: int
    var orderPlaced: bool

    ghost predicate Valid()
      reads this
    {
      ValidStep(step)
    }

    constructor (store: StoreProvider)
      ensures Valid() && this.store == store && step == 1 && !orderPlaced
      ensures CurrentView() == if |store.cart| == 0 then EmptyBag else Form(1)
    {
      this.store := store;
      step := 1;
      orderPlaced := false;
    }

    function CurrentView(): (v: View)
      reads this, store
    {
      ViewFor(|store.cart| == 0, orderPlaced, step)
    }

    /** Runs the handler of the clicked control against the current cart. */
    method Click(control: Control)
      requires Valid()
      modifies this
      ensures Valid()
      ensures Flow(step, orderPlaced) == OnClick(Flow(old(step), old(orderPlaced)), |store.cart| == 0, control)
    {
      var next := OnClick(Flow(step, orderPlaced), |store.cart| == 0, control);
      step, orderPlaced := next.step, next.orderPlaced;
    }
  }
}
