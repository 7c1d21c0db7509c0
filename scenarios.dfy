/**
 * Worked examples over the catalog's own records: a cart built with the
 * store's `addToCart` and the order summary the checkout page shows for it.
 */
module Scenarios {
  import opened Wrappers
  import opened Store
  import opened Checkout

  /** Three of the catalog's overcoats in M, Charcoal, added as one and then two, cost 1167. */
  lemma OvercoatSubtotal()
    ensures var coat := MerinoWoolOvercoat();
      Total(AddLine(AddLine([], coat, 1, Some("M"), Some("Charcoal")), coat, 2, Some("M"), Some("Charcoal"))) == 1167.0
  {
    OvercoatPrice();
    OvercoatScenario(MerinoWoolOvercoat());
  }

  /**
   * The checkout summary for that cart: standard shipping is free, the tax
   * is 93.36 and the total 1260.36, or 1275.36 by express.
   */
  lemma OvercoatOrderSummary()
    ensures var coat := MerinoWoolOvercoat();
      var subtotal := Total(AddLine(AddLine([], coat, 1, Some("M"), Some("Charcoal")), coat, 2, Some("M"), Some("Charcoal")));
      ShippingCost("standard", subtotal) == 0.0 && Tax(subtotal) == 93.36
      && OrderTotal("standard", subtotal) == 1260.36 && OrderTotal("express", subtotal) == 1275.36
  {
    OvercoatSubtotal();
    SummaryAt1167();
  }
}
