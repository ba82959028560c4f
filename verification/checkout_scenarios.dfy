/** Worked end-to-end cases of the checkout preview, computed through the
    reference definition of the view. */
module CheckoutScenarios {
  import opened Common
  import opened Text
  import opened Money
  import opened Catalog
  import opened CheckoutRequest
  import opened Checkout

  /** A cart asking for 2 of a product with 1 in stock: the line is reported
      out of stock, `ok` is false, nothing is added to the total, and the
      message lists no item. */
  lemma WidgetOutOfStock(quote: Quoter)
    ensures var widget := Product("Widget", "", 7990, 1);
            var r := CheckoutSpec(Request([CartItem(1, 2)], "", ""), map[1 := widget], None, quote);
            && r.Priced? && !r.ok
            && |r.items| == 1 && !r.items[0].inStock
            && r.items[0].requestedQty == 2 && r.items[0].availableQty == 1
            && r.totalValue == "0.00"
            && r.message == BuildMessage("", [], FromCents(0), "")
  {
    var widget := Product("Widget", "", 7990, 1);
    var products := map[1 := widget];
    var cart := [CartItem(1, 2)];
    assert cart[..0] == [];
    assert AllPresent(cart, products);
    assert !AnyOverflows(cart, products);
    assert !AllServed(cart, products);
    assert PricedLines(cart, products) == [PriceLine(cart[0], widget)];
    assert InStockTotal(cart, products) == 0;
    assert OkItems(cart, products) == [];
    ZeroRendering();
  }

  lemma ZeroRendering()
    ensures Fixed2(FromCents(0)) == "0.00"
  {
  }

  /** Two units at 29.95 for a named customer: 59.90 is both the subtotal
      and the total, and the message lists the line for that customer. */
  lemma GadgetForAna(quote: Quoter)
    ensures var gadget := Product("Gadget", "", 2995, 10);
            var r := CheckoutSpec(Request([CartItem(7, 2)], "Ana", ""), map[7 := gadget], None, quote);
            && r.Priced? && r.ok
            && |r.items| == 1 && r.items[0].inStock && r.items[0].subtotal == "59.90"
            && r.totalValue == "59.90"
            && r.message == BuildMessage("Ana", [OkItem("Gadget", 2, FromCents(2995), FromCents(5990))], FromCents(5990), "")
  {
    var gadget := Product("Gadget", "", 2995, 10);
    var products := map[7 := gadget];
    var cart := [CartItem(7, 2)];
    assert cart[..0] == [];
    assert AllPresent(cart, products);
    assert !AnyOverflows(cart, products);
    assert AllServed(cart, products);
    assert PricedLines(cart, products) == [PriceLine(cart[0], gadget)];
    assert InStockTotal(cart, products) == 5990;
    assert OkItems(cart, products) == [OkItem("Gadget", 2, FromCents(2995), FromCents(5990))];
    PriceLineAmounts(cart[0], gadget);
    assert NatToString(59) == "59";
    assert Fixed2(FromCents(5990)) == "59.90";
  }

  /** Unknown ids short-circuit: every missing id is reported, in cart
      order and with repeats, and no line is priced. */
  lemma MissingShortCircuit(quote: Quoter)
    ensures var req := Request([CartItem(1, 1), CartItem(2, 5), CartItem(2, 1)], "", "");
            CheckoutSpec(req, map[1 := Product("Widget", "", 7990, 1)], None, quote) == ProductsNotFound([2, 2])
  {
    var cart := [CartItem(1, 1), CartItem(2, 5), CartItem(2, 1)];
    var products := map[1 := Product("Widget", "", 7990, 1)];
    assert cart[..2][..1] == [CartItem(1, 1)];
    assert cart[..2] == [CartItem(1, 1), CartItem(2, 5)];
    assert [CartItem(1, 1)][..0] == [];
    assert MissingIds([CartItem(1, 1)], products) == [];
    assert MissingIds(cart[..2], products) == [2];
    assert MissingIds(cart, products) == [2, 2];
    assert !AllPresent(cart, products) by { assert cart[1].productId !in products; }
  }
}
