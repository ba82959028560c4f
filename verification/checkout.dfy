/** The checkout preview of products/views_checkout.py: a validated cart is
    priced against the catalog's products, each line is checked against the
    stock on hand (nothing is reserved or decremented), and an order message
    and a WhatsApp deep link are rendered from the lines that can be served. */
module Checkout {
  import opened Common
  import opened Text
  import opened Money
  import opened Catalog
  import opened CheckoutRequest

  /** Python's default decimal context keeps 28 significant digits: an amount
      of 10^28 cents or more cannot be quantized to cents, and `_money`
      raises InvalidOperation. */
  const CENTS_LIMIT: int := 10_000_000_000_000_000_000_000_000_000

  /** `urllib.parse.quote(message, safe='')`, percent-encoding as in
      section 2.1 of RFC 3986 over UTF-8; foreign to this model. */
  type Quoter = string -> string

  const WA_PREFIX: string := "https://wa.me/"
  const WA_QUERY: string := "?text="

  /** One entry of the response's `items`. */
  datatype LineResult = LineResult(
    productId: Uuid,
    name: string,
    requestedQty: int,
    availableQty: nat,
    inStock: bool,
    unitPrice: string,
    subtotal: string)

  /** One entry of `items_ok`, the amounts read back from the rendered ones. */
  datatype OkItem = OkItem(name: string, qty: int, unitPrice: Dec, subtotal: Dec)

  datatype Response =
    | ProductsNotFound(missing: seq<Uuid>)   // HTTP 400, `ok: false`
    | Priced(ok: bool, items: seq<LineResult>, totalValue: string, message: string, whatsappUrl: string)
    | DecimalOverflow                         // InvalidOperation escapes: HTTP 500

  // ---------------------------------------------------------------------
  // Reference definitions, one cart line at a time
  // ---------------------------------------------------------------------

  /** A line is served when the stock on hand covers the requested quantity. */
  predicate Fulfillable(p: Product, qty: int) {
    p.stock >= qty
  }

  /** A line whose amount has more than 28 digits in cents. */
  predicate Overflows(p: Product, qty: int) {
    Abs(p.price) * qty >= CENTS_LIMIT
  }

  predicate AllPresent(cart: seq<CartItem>, products: map<Uuid, Product>) {
    forall i :: 0 <= i < |cart| ==> cart[i].productId in products
  }

  /** The requested ids, line by line: `product_ids`. */
  function CartIds(cart: seq<CartItem>): (r: seq<Uuid>)
    ensures |r| == |cart| && forall i :: 0 <= i < |cart| ==> r[i] == cart[i].productId
  {
    if |cart| == 0 then [] else CartIds(cart[..|cart| - 1]) + [cart[|cart| - 1].productId]
  }

  /** The requested ids with no product, in cart order, repeats kept: each
      missing id is listed as often as the cart requests it, and (with
      `MissingIdsAppend`) in the order of the cart. */
  function MissingIds(cart: seq<CartItem>, products: map<Uuid, Product>): (r: seq<Uuid>)
    ensures |r| == 0 <==> AllPresent(cart, products)
    ensures forall x :: x in r ==> x !in products
    ensures forall i :: 0 <= i < |cart| && cart[i].productId !in products ==> cart[i].productId in r
    ensures |cart| == 1 ==> r == (if cart[0].productId in products then [] else [cart[0].productId])
  {
    if |cart| == 0 then []
    else
      var id := cart[|cart| - 1].productId;
      var rest := MissingIds(cart[..|cart| - 1], products);
      assert forall i :: 0 <= i < |cart| - 1 ==> cart[..|cart| - 1][i] == cart[i];
      rest + (if id !in products then [id] else [])
  }

  /** One more cart line adds its id at the end when the id is missing. */
  lemma MissingIdsSnoc(s: seq<CartItem>, item: CartItem, products: map<Uuid, Product>)
    ensures MissingIds(s + [item], products)
            == MissingIds(s, products) + (if item.productId !in products then [item.productId] else [])
    ensures CartIds(s + [item]) == CartIds(s) + [item.productId]
  {
    assert (s + [item])[..|s|] == s;
  }

  /** Each missing id is listed as often as the cart requests it. */
  lemma {:induction false} MissingIdsCount(cart: seq<CartItem>, products: map<Uuid, Product>, x: Uuid)
    requires x !in products
    ensures multiset(MissingIds(cart, products))[x] == multiset(CartIds(cart))[x]
  {
    if |cart| > 0 {
      var front := cart[..|cart| - 1];
      assert cart == front + [cart[|cart| - 1]];
      MissingIdsSnoc(front, cart[|cart| - 1], products);
      MissingIdsCount(front, products, x);
    }
  }

  /** The missing ids of two carts side by side are those of the first
      followed by those of the second: the list follows cart order. */
  lemma {:induction false} MissingIdsAppend(a: seq<CartItem>, b: seq<CartItem>, products: map<Uuid, Product>)
    ensures MissingIds(a + b, products) == MissingIds(a, products) + MissingIds(b, products)
    decreases |b|
  {
    if |b| == 0 {
      assert a + b == a;
    } else {
      var front := b[..|b| - 1];
      var last := b[|b| - 1];
      assert b == front + [last];
      assert a + b == (a + front) + [last];
      var tail := if last.productId !in products then [last.productId] else [];
      var ma, mf := MissingIds(a, products), MissingIds(front, products);
      MissingIdsSnoc(front, last, products);
      MissingIdsSnoc(a + front, last, products);
      MissingIdsAppend(a, front, products);
      calc {
        MissingIds(a + b, products);
        MissingIds((a + front) + [last], products);
        MissingIds(a + front, products) + tail;
        (ma + mf) + tail;
        { ConcatAssoc(ma, mf, tail); }
        ma + (mf + tail);
        ma + MissingIds(b, products);
      }
    }
  }

  /** The line as priced by the view: `unit_price = _money(price)`,
      `subtotal = _money(price * qty)`, both rendered with `.2f`. */
  function PriceLine(item: CartItem, p: Product): LineResult
    requires item.qty >= 1
  {
    LineResult(
      item.productId, p.name, item.qty, p.stock, Fulfillable(p, item.qty),
      Fixed2(Quantize(FromCents(p.price))),
      Fixed2(Quantize(MulQty(FromCents(p.price), item.qty))))
  }

  predicate ValidCart(cart: seq<CartItem>) {
    forall i :: 0 <= i < |cart| ==> cart[i].qty >= 1
  }

  /** The response's `items`: every line priced, repeats included, in cart
      order. */
  function PricedLines(cart: seq<CartItem>, products: map<Uuid, Product>): (r: seq<LineResult>)
    requires ValidCart(cart) && AllPresent(cart, products)
  {
    if |cart| == 0 then []
    else
      var item := cart[|cart| - 1];
      PricedLines(cart[..|cart| - 1], products) + [PriceLine(item, products[item.productId])]
  }

  /** Every line can be served: the response's `ok`. */
  predicate AllServed(cart: seq<CartItem>, products: map<Uuid, Product>)
    requires AllPresent(cart, products)
  {
    || |cart| == 0
    || (&& AllServed(cart[..|cart| - 1], products)
        && Fulfillable(products[cart[|cart| - 1].productId], cart[|cart| - 1].qty))
  }

  /** Some line's amount is too wide to quantize. */
  predicate AnyOverflows(cart: seq<CartItem>, products: map<Uuid, Product>)
    requires AllPresent(cart, products)
  {
    && |cart| > 0
    && (|| AnyOverflows(cart[..|cart| - 1], products)
        || Overflows(products[cart[|cart| - 1].productId], cart[|cart| - 1].qty))
  }

  /** What one line adds to the total, in cents: its amount when it can
      be served, nothing otherwise. */
  function ServedCents(p: Product, qty: int): int {
    if Fulfillable(p, qty) then p.price * qty else 0
  }

  /** The sum, in cents, of the amounts of the served lines; a line that
      cannot be served adds nothing. */
  function InStockTotal(cart: seq<CartItem>, products: map<Uuid, Product>): int
    requires AllPresent(cart, products)
  {
    if |cart| == 0 then 0
    else
      var item := cart[|cart| - 1];
      var p := products[item.productId];
      InStockTotal(cart[..|cart| - 1], products)
        + ServedCents(p, item.qty)
  }

  /** The served lines, in cart order, as the message lists them. */
  function OkItems(cart: seq<CartItem>, products: map<Uuid, Product>): seq<OkItem>
    requires AllPresent(cart, products)
  {
    if |cart| == 0 then []
    else
      var item := cart[|cart| - 1];
      var p := products[item.productId];
      OkItems(cart[..|cart| - 1], products)
        + (if Fulfillable(p, item.qty)
           then [OkItem(p.name, item.qty, FromCents(p.price), FromCents(p.price * item.qty))]
           else [])
  }

  // ---------------------------------------------------------------------
  // Message and deep link
  // ---------------------------------------------------------------------

  // The fixed texts of the message.
  const GREET_NAMED: string := "Olá! Meu nome é "
  const GREET_ORDER: string := ". Gostaria de fazer um pedido:"
  const GREET_PLAIN: string := "Olá! Gostaria de fazer um pedido:"
  const ITEM_BULLET: string := "- "
  const ITEM_TIMES: string := " x"
  const ITEM_UNIT: string := " (R$ "
  const ITEM_SUBTOTAL: string := ") = R$ "
  const TOTAL_LABEL: string := "Total: R$ "
  const NOTES_LABEL: string := "Observações: "

  function Greeting(customerName: string): string {
    if customerName != "" then GREET_NAMED + customerName + GREET_ORDER
    else GREET_PLAIN
  }

  function ItemLine(it: OkItem): string {
    ITEM_BULLET + it.name + ITEM_TIMES + IntToString(it.qty) + ITEM_UNIT + Brl(it.unitPrice)
      + ITEM_SUBTOTAL + Brl(it.subtotal)
  }

  function ItemLines(items: seq<OkItem>): (r: seq<string>)
    ensures |r| == |items|
    ensures forall k :: 0 <= k < |items| ==> r[k] == ItemLine(items[k])
  {
    seq(|items|, k requires 0 <= k < |items| => ItemLine(items[k]))
  }

  function TotalLine(total: Dec): string {
    TOTAL_LABEL + Brl(total)
  }

  function NotesLine(notes: string): string {
    NOTES_LABEL + notes
  }

  /** The closing lines: a blank line and the notes, when notes are given. */
  function NotesTail(notes: string): seq<string> {
    if notes != "" then ["", NotesLine(notes)] else []
  }

  /** The lines of `_build_message`. */
  function MessageLines(customerName: string, items: seq<OkItem>, total: Dec, notes: string): seq<string> {
    [Greeting(customerName), ""] + ItemLines(items) + (["", TotalLine(total)] + NotesTail(notes))
  }

  /** `_build_message`: the lines joined with newlines. */
  function BuildMessage(customerName: string, items: seq<OkItem>, total: Dec, notes: string): string {
    Join(MessageLines(customerName, items, total, notes), "\n")
  }

  /** `_build_whatsapp_url`. */
  function WhatsappUrl(phone: string, message: string, quote: Quoter): string {
    WA_PREFIX + DigitsOf(phone) + WA_QUERY + quote(message)
  }

  /** `getattr(settings, 'WHATSAPP_PHONE_NUMBER', '') or ''` then
      `_build_whatsapp_url(phone, message) if phone else ''`. */
  function DeepLink(setting: Option<string>, message: string, quote: Quoter): string {
    if setting.Some? && setting.value != "" then WhatsappUrl(setting.value, message, quote) else ""
  }

  function Abs(x: int): nat {
    if x < 0 then -x else x
  }

  /** The whole view, as one reference definition. */
  function CheckoutSpec(req: Request, products: map<Uuid, Product>, phone: Option<string>, quote: Quoter): Response
    requires ValidCart(req.items)
  {
    var cart := req.items;
    if !AllPresent(cart, products) then ProductsNotFound(MissingIds(cart, products))
    else if AnyOverflows(cart, products) || Abs(InStockTotal(cart, products)) >= CENTS_LIMIT
    then DecimalOverflow
    else
      var total := InStockTotal(cart, products);
      var message := BuildMessage(req.customerName, OkItems(cart, products), FromCents(total), req.notes);
      Priced(
        AllServed(cart, products),
        PricedLines(cart, products),
        Fixed2(FromCents(total)),
        message,
        DeepLink(phone, message, quote))
  }

  // ---------------------------------------------------------------------
  // The view, `CheckoutValidateAPIView.post`, after request validation
  // ---------------------------------------------------------------------

  /** `[pid for pid in product_ids if pid not in products_map]`. */
  method FindMissing(cart: seq<CartItem>, products: map<Uuid, Product>) returns (missing: seq<Uuid>)
    ensures missing == MissingIds(cart, products)
  {
    missing := [];
    var i := 0;
    while i < |cart|
      invariant 0 <= i <= |cart|
      invariant missing == MissingIds(cart[..i], products)
    {
      assert cart[..i + 1][..i] == cart[..i];
      if cart[i].productId !in products {
        missing := missing + [cart[i].productId];
      }
      i := i + 1;
    }
    assert cart[..|cart|] == cart;
  }

  /** The recursive definition of the response's `items` is the pointwise
      one: entry k prices line k. */
  lemma {:induction false} PricedLinesIndex(cart: seq<CartItem>, products: map<Uuid, Product>)
    requires ValidCart(cart) && AllPresent(cart, products)
    ensures |PricedLines(cart, products)| == |cart|
    ensures forall k :: 0 <= k < |cart| ==>
              PricedLines(cart, products)[k] == PriceLine(cart[k], products[cart[k].productId])
  {
    if |cart| > 0 {
      var front := cart[..|cart| - 1];
      assert ValidCart(front) && AllPresent(front, products);
      PricedLinesIndex(front, products);
      forall k | 0 <= k < |cart| - 1
        ensures PricedLines(cart, products)[k] == PriceLine(cart[k], products[cart[k].productId])
      {
        assert front[k] == cart[k];
      }
    }
  }

  lemma PricedLinesAt(cart: seq<CartItem>, products: map<Uuid, Product>, i: nat)
    requires ValidCart(cart) && AllPresent(cart, products) && i < |cart|
    ensures |PricedLines(cart, products)| == |cart|
    ensures PricedLines(cart, products)[i] == PriceLine(cart[i], products[cart[i].productId])
  {
    PricedLinesIndex(cart, products);
  }

  /** A cart overflows exactly when one of its lines does. */
  lemma {:induction false} AnyOverflowsIff(cart: seq<CartItem>, products: map<Uuid, Product>)
    requires AllPresent(cart, products)
    ensures AnyOverflows(cart, products) <==>
              exists i :: 0 <= i < |cart| && Overflows(products[cart[i].productId], cart[i].qty)
  {
    if |cart| > 0 {
      var front := cart[..|cart| - 1];
      assert AllPresent(front, products);
      AnyOverflowsIff(front, products);
      if exists i :: 0 <= i < |front| && Overflows(products[front[i].productId], front[i].qty) {
        var i :| 0 <= i < |front| && Overflows(products[front[i].productId], front[i].qty);
        assert cart[i] == front[i];
      }
      if exists i :: 0 <= i < |cart| && Overflows(products[cart[i].productId], cart[i].qty) {
        var i :| 0 <= i < |cart| && Overflows(products[cart[i].productId], cart[i].qty);
        if i < |front| {
          assert cart[i] == front[i];
        }
      }
    }
  }

  /** `ok` is true exactly when every line can be served. */
  lemma {:induction false} AllServedIff(cart: seq<CartItem>, products: map<Uuid, Product>)
    requires AllPresent(cart, products)
    ensures AllServed(cart, products) <==>
              forall i :: 0 <= i < |cart| ==> Fulfillable(products[cart[i].productId], cart[i].qty)
  {
    if |cart| > 0 {
      var front := cart[..|cart| - 1];
      assert AllPresent(front, products);
      AllServedIff(front, products);
      assert forall i :: 0 <= i < |front| ==> front[i] == cart[i];
    }
  }

  /** Extending a cart by one line extends the reference sums by that line. */
  lemma PrefixStep(cart: seq<CartItem>, products: map<Uuid, Product>, i: nat)
    requires ValidCart(cart) && AllPresent(cart, products) && i < |cart|
    ensures ValidCart(cart[..i]) && ValidCart(cart[..i + 1])
    ensures AllPresent(cart[..i], products) && AllPresent(cart[..i + 1], products)
    ensures PricedLines(cart[..i + 1], products)
              == PricedLines(cart[..i], products) + [PriceLine(cart[i], products[cart[i].productId])]
    ensures AnyOverflows(cart[..i + 1], products)
              == (AnyOverflows(cart[..i], products) || Overflows(products[cart[i].productId], cart[i].qty))
    ensures AllServed(cart[..i + 1], products)
              == (AllServed(cart[..i], products) && Fulfillable(products[cart[i].productId], cart[i].qty))
    ensures var p := products[cart[i].productId];
            InStockTotal(cart[..i + 1], products)
              == InStockTotal(cart[..i], products) + ServedCents(p, cart[i].qty)
    ensures var p := products[cart[i].productId];
            OkItems(cart[..i + 1], products)
              == OkItems(cart[..i], products)
                 + (if Fulfillable(p, cart[i].qty)
                    then [OkItem(p.name, cart[i].qty, FromCents(p.price), FromCents(p.price * cart[i].qty))]
                    else [])
  {
    assert cart[..i + 1][..i] == cart[..i];
    assert cart[..i + 1][i] == cart[i];
  }

  /** One line priced as the view does it; the line's amount in cents is
      returned alongside the rendered entry. */
  method PriceOne(item: CartItem, p: Product) returns (line: LineResult, cents: int)
    requires item.qty >= 1
    ensures line == PriceLine(item, p)
    ensures cents == p.price * item.qty
    ensures line.inStock <==> Fulfillable(p, item.qty)
    ensures (if line.inStock then cents else 0) == ServedCents(p, item.qty)
  {
    var unit := FromCents(p.price);
    var subtotal := Quantize(MulQty(unit, item.qty));
    QuantizeCents(MulQty(unit, item.qty));
    line := LineResult(item.productId, p.name, item.qty, p.stock, p.stock >= item.qty,
                       Fixed2(Quantize(unit)), Fixed2(subtotal));
    cents := CentsOf(subtotal);
  }

  /** Whether quantizing some line's amount raises. The view raises in the
      middle of its pricing loop, which discards everything priced so far,
      so finding the overflow first gives the same response. */
  method FindOverflow(cart: seq<CartItem>, products: map<Uuid, Product>) returns (overflow: bool)
    requires AllPresent(cart, products)
    ensures overflow == AnyOverflows(cart, products)
  {
    overflow := false;
    var i := 0;
    while i < |cart|
      invariant 0 <= i <= |cart|
      invariant AllPresent(cart[..i], products)
      invariant overflow == AnyOverflows(cart[..i], products)
    {
      assert cart[..i + 1][..i] == cart[..i];
      assert cart[..i + 1][i] == cart[i];
      overflow := overflow || Overflows(products[cart[i].productId], cart[i].qty);
      i := i + 1;
    }
    assert cart[..|cart|] == cart;
  }

  /** The pricing loop: one entry per line, `ok` cleared by any line that
      cannot be served, the total accumulating served lines only. */
  method PriceLines(cart: seq<CartItem>, products: map<Uuid, Product>)
    returns (items: seq<LineResult>, ok: bool, total: int)
    requires ValidCart(cart) && AllPresent(cart, products)
    ensures items == PricedLines(cart, products)
    ensures ok == AllServed(cart, products)
    ensures total == InStockTotal(cart, products)
  {
    items := [];
    ok := true;
    total := 0;
    var i := 0;
    while i < |cart|
      invariant 0 <= i <= |cart|
      invariant ValidCart(cart[..i]) && AllPresent(cart[..i], products)
      invariant items == PricedLines(cart[..i], products)
      invariant ok == AllServed(cart[..i], products)
      invariant total == InStockTotal(cart[..i], products)
    {
      PrefixStep(cart, products, i);
      var p := products[cart[i].productId];
      var line, cents := PriceOne(cart[i], p);
      ok := ok && line.inStock;
      items := items + [line];
      total := total + (if line.inStock then cents else 0);
      i := i + 1;
    }
    assert cart[..|cart|] == cart;
  }

  /** One served entry read back: `Decimal(r['unit_price'])` and
      `Decimal(r['subtotal'])` give the exact amounts. */
  method ReadBack(item: CartItem, p: Product, line: LineResult) returns (it: OkItem)
    requires item.qty >= 1 && line == PriceLine(item, p)
    ensures it == OkItem(p.name, item.qty, FromCents(p.price), FromCents(p.price * item.qty))
  {
    PriceLineAmounts(item, p);
    Fixed2RoundTrip(FromCents(p.price));
    Fixed2RoundTrip(FromCents(p.price * item.qty));
    var unitPrice := ParseFixed2(line.unitPrice);
    var subtotal := ParseFixed2(line.subtotal);
    it := OkItem(line.name, line.requestedQty, unitPrice.value, subtotal.value);
  }

  /** `items_ok`: the served entries, their amounts read back with
      `Decimal(...)` from the rendered strings. */
  method CollectOkItems(cart: seq<CartItem>, products: map<Uuid, Product>, items: seq<LineResult>)
    returns (okItems: seq<OkItem>)
    requires ValidCart(cart) && AllPresent(cart, products)
    requires items == PricedLines(cart, products)
    ensures okItems == OkItems(cart, products)
  {
    okItems := [];
    var i := 0;
    while i < |cart|
      invariant 0 <= i <= |cart|
      invariant AllPresent(cart[..i], products)
      invariant okItems == OkItems(cart[..i], products)
    {
      PrefixStep(cart, products, i);
      PricedLinesAt(cart, products, i);
      var p := products[cart[i].productId];
      if items[i].inStock {
        var it := ReadBack(cart[i], p, items[i]);
        okItems := okItems + [it];
      }
      i := i + 1;
    }
    assert cart[..|cart|] == cart;
  }

  /** The rendered amounts of a priced line are its exact cents. */
  lemma PriceLineAmounts(item: CartItem, p: Product)
    requires item.qty >= 1
    ensures PriceLine(item, p).unitPrice == Fixed2(FromCents(p.price))
    ensures PriceLine(item, p).subtotal == Fixed2(FromCents(p.price * item.qty))
  {
    QuantizeCents(FromCents(p.price));
    MulQtyCents(p.price, item.qty);
    QuantizeCents(FromCents(p.price * item.qty));
  }

  /** `CheckoutValidateAPIView.post` after the request body is validated:
      the missing-id scan, the pricing loop, the read-back of served lines,
      the message and the deep link, in the view's order. */
  method ValidateCart(req: Request, products: map<Uuid, Product>, phone: Option<string>, quote: Quoter)
    returns (r: Response)
    requires ValidCart(req.items)
    ensures r == CheckoutSpec(req, products, phone, quote)
    ensures r.ProductsNotFound? <==> !AllPresent(req.items, products)
  {
    var cart := req.items;
    var missing := FindMissing(cart, products);
    if |missing| > 0 {
      return ProductsNotFound(missing);
    }
    var overflow := FindOverflow(cart, products);
    if overflow {
      return DecimalOverflow;
    }
    var items, ok, total := PriceLines(cart, products);
    var okItems := CollectOkItems(cart, products, items);
    if Abs(total) >= CENTS_LIMIT {
      return DecimalOverflow;
    }
    var message := BuildMessage(req.customerName, okItems, FromCents(total), req.notes);
    var url := DeepLink(phone, message, quote);
    QuantizeCents(FromCents(total));
    r := Priced(ok, items, Fixed2(Quantize(FromCents(total))), message, url);
  }

  /** Which of the three responses the view gives. The missing-product
      check comes first and prices nothing; a 500 comes exactly from an
      amount too wide for 28 digits; every other cart is priced. */
  lemma CheckoutOutcome(req: Request, products: map<Uuid, Product>, phone: Option<string>, quote: Quoter)
    requires ValidCart(req.items)
    ensures var r := CheckoutSpec(req, products, phone, quote);
            r.ProductsNotFound? <==> !AllPresent(req.items, products)
    ensures var r := CheckoutSpec(req, products, phone, quote);
            r.ProductsNotFound? ==> r.missing == MissingIds(req.items, products) && |r.missing| > 0
    ensures var r := CheckoutSpec(req, products, phone, quote);
            r.DecimalOverflow? <==>
              && AllPresent(req.items, products)
              && (|| (exists i :: 0 <= i < |req.items| && Overflows(products[req.items[i].productId], req.items[i].qty))
                  || Abs(InStockTotal(req.items, products)) >= CENTS_LIMIT)
  {
    if AllPresent(req.items, products) {
      AnyOverflowsIff(req.items, products);
    }
  }

  /** What a priced response promises: every line, repeats included, has
      its own entry in input order, `in_stock` compares stock with the
      requested quantity, `ok` says every line is in stock, and only served
      lines add to the total. */
  lemma CheckoutResponse(req: Request, products: map<Uuid, Product>, phone: Option<string>, quote: Quoter)
    requires ValidCart(req.items)
    ensures var r := CheckoutSpec(req, products, phone, quote);
            r.Priced? ==> |r.items| == |req.items|
    ensures var r := CheckoutSpec(req, products, phone, quote);
            r.Priced? ==> forall i :: 0 <= i < |req.items| ==>
              var item := req.items[i];
              var p := products[item.productId];
              && r.items[i].productId == item.productId
              && r.items[i].requestedQty == item.qty
              && r.items[i].availableQty == p.stock
              && (r.items[i].inStock <==> p.stock >= item.qty)
              && r.items[i].unitPrice == Fixed2(FromCents(p.price))
              && r.items[i].subtotal == Fixed2(FromCents(p.price * item.qty))
    ensures var r := CheckoutSpec(req, products, phone, quote);
            r.Priced? ==> (r.ok <==> forall i :: 0 <= i < |r.items| ==> r.items[i].inStock)
    ensures var r := CheckoutSpec(req, products, phone, quote);
            r.Priced? ==> r.totalValue == Fixed2(FromCents(InStockTotal(req.items, products)))
  {
    var cart := req.items;
    if AllPresent(cart, products) {
      AllServedIff(cart, products);
      PricedLinesEntries(cart, products);
    }
  }

  /** Entry k of the response's `items` describes line k of the cart. */
  lemma PricedLinesEntries(cart: seq<CartItem>, products: map<Uuid, Product>)
    requires ValidCart(cart) && AllPresent(cart, products)
    ensures |PricedLines(cart, products)| == |cart|
    ensures forall i :: 0 <= i < |cart| ==>
              var item := cart[i];
              var p := products[item.productId];
              var e := PricedLines(cart, products)[i];
              && e.productId == item.productId
              && e.requestedQty == item.qty
              && e.availableQty == p.stock
              && (e.inStock <==> p.stock >= item.qty)
              && e.unitPrice == Fixed2(FromCents(p.price))
              && e.subtotal == Fixed2(FromCents(p.price * item.qty))
  {
    PricedLinesIndex(cart, products);
    forall k | 0 <= k < |cart|
      ensures PricedLines(cart, products)[k].unitPrice == Fixed2(FromCents(products[cart[k].productId].price))
      ensures PricedLines(cart, products)[k].subtotal
                == Fixed2(FromCents(products[cart[k].productId].price * cart[k].qty))
    {
      PriceLineAmounts(cart[k], products[cart[k].productId]);
    }
  }

  // ---------------------------------------------------------------------
  // Properties of the message and the deep link
  // ---------------------------------------------------------------------

  lemma IntToStringNoNewline(i: int)
    ensures NoChar(IntToString(i), '\n')
  {
    var n := NatToString(if i < 0 then -i else i);
    assert NoChar(n, '\n') by {
      forall k | 0 <= k < |n| ensures n[k] != '\n' {
        assert IsDigit(n[k]);
      }
    }
  }

  lemma BrlNoNewline(d: Dec)
    ensures NoChar(Brl(d), '\n')
  {
    var s := Brl(d);
    forall k | 0 <= k < |s| ensures s[k] != '\n' {
      assert IsDigit(s[k]) || s[k] == ',' || s[k] == '-';
    }
  }

  /** Every rendered line of the message is free of newlines when the
      customer's name, the notes and the product names are. */
  lemma MessageLinesNoNewline(customerName: string, items: seq<OkItem>, total: Dec, notes: string)
    requires NoChar(customerName, '\n') && NoChar(notes, '\n')
    requires forall k :: 0 <= k < |items| ==> NoChar(items[k].name, '\n')
    ensures forall j :: 0 <= j < |MessageLines(customerName, items, total, notes)| ==>
              NoChar(MessageLines(customerName, items, total, notes)[j], '\n')
  {
    var body := ItemLines(items);
    forall k | 0 <= k < |body| ensures NoChar(body[k], '\n') {
      ItemLineNoNewline(items[k]);
    }
    var head := [Greeting(customerName), ""];
    GreetingNoNewline(customerName);
    var tail := ["", TotalLine(total)] + NotesTail(notes);
    FootNoNewline(total, notes);
    LinesNoChar(head, body, tail, '\n');
    assert MessageLines(customerName, items, total, notes) == head + body + tail;
  }

  lemma LinesNoChar(a: seq<string>, b: seq<string>, c: seq<string>, ch: char)
    requires forall j :: 0 <= j < |a| ==> NoChar(a[j], ch)
    requires forall j :: 0 <= j < |b| ==> NoChar(b[j], ch)
    requires forall j :: 0 <= j < |c| ==> NoChar(c[j], ch)
    ensures forall j :: 0 <= j < |a + b + c| ==> NoChar((a + b + c)[j], ch)
  {
  }

  /** None of the fixed texts holds a newline. */
  lemma TextsNoNewline()
    ensures NoChar(GREET_NAMED, '\n') && NoChar(GREET_ORDER, '\n') && NoChar(GREET_PLAIN, '\n')
    ensures NoChar(ITEM_BULLET, '\n') && NoChar(ITEM_TIMES, '\n')
    ensures NoChar(ITEM_UNIT, '\n') && NoChar(ITEM_SUBTOTAL, '\n')
    ensures NoChar(TOTAL_LABEL, '\n') && NoChar(NOTES_LABEL, '\n')
  {
  }

  lemma GreetingNoNewline(customerName: string)
    requires NoChar(customerName, '\n')
    ensures NoChar(Greeting(customerName), '\n') && NoChar("", '\n')
  {
    TextsNoNewline();
    NoCharAppend(GREET_NAMED + customerName, GREET_ORDER, '\n');
    NoCharAppend(GREET_NAMED, customerName, '\n');
  }

  lemma FootNoNewline(total: Dec, notes: string)
    requires NoChar(notes, '\n')
    ensures var tail := ["", TotalLine(total)] + NotesTail(notes);
            forall j :: 0 <= j < |tail| ==> NoChar(tail[j], '\n')
  {
    BrlNoNewline(total);
    TextsNoNewline();
    NoCharAppend(TOTAL_LABEL, Brl(total), '\n');
    NoCharAppend(NOTES_LABEL, notes, '\n');
  }

  lemma ItemLineNoNewline(it: OkItem)
    requires NoChar(it.name, '\n')
    ensures NoChar(ItemLine(it), '\n')
  {
    IntToStringNoNewline(it.qty);
    BrlNoNewline(it.unitPrice);
    BrlNoNewline(it.subtotal);
    TextsNoNewline();
    var a := ITEM_BULLET + it.name;
    NoCharAppend(ITEM_BULLET, it.name, '\n');
    var b := a + ITEM_TIMES;
    NoCharAppend(a, ITEM_TIMES, '\n');
    var c := b + IntToString(it.qty);
    NoCharAppend(b, IntToString(it.qty), '\n');
    var d := c + ITEM_UNIT;
    NoCharAppend(c, ITEM_UNIT, '\n');
    var e := d + Brl(it.unitPrice);
    NoCharAppend(d, Brl(it.unitPrice), '\n');
    var f := e + ITEM_SUBTOTAL;
    NoCharAppend(e, ITEM_SUBTOTAL, '\n');
    NoCharAppend(f, Brl(it.subtotal), '\n');
  }

  /** Positions in a layout of the form greeting, blank, body, blank,
      total, then an optional tail. */
  lemma FramePositions(greeting: string, body: seq<string>, totalLine: string, tail: seq<string>)
    ensures var lines := [greeting, ""] + body + (["", totalLine] + tail);
            && |lines| == |body| + 4 + |tail|
            && lines[0] == greeting && lines[1] == ""
            && (forall k :: 0 <= k < |body| ==> lines[2 + k] == body[k])
            && lines[|body| + 2] == "" && lines[|body| + 3] == totalLine
            && (forall k :: 0 <= k < |tail| ==> lines[|body| + 4 + k] == tail[k])
  {
    var head := [greeting, ""];
    var lines := head + body + (["", totalLine] + tail);
    forall k | 0 <= k < |body| ensures lines[2 + k] == body[k] {
      assert (head + body)[2 + k] == body[k];
    }
  }

  /** Where each part of the message sits among its lines. */
  lemma MessageLinesShape(customerName: string, items: seq<OkItem>, total: Dec, notes: string)
    ensures var lines := MessageLines(customerName, items, total, notes);
            && |lines| == |items| + (if notes != "" then 6 else 4)
            && lines[0] == Greeting(customerName) && lines[1] == ""
            && (forall k :: 0 <= k < |items| ==> lines[2 + k] == ItemLine(items[k]))
            && lines[|items| + 2] == "" && lines[|items| + 3] == TotalLine(total)
            && (notes != "" ==> lines[|items| + 4] == "" && lines[|items| + 5] == NotesLine(notes))
  {
    FramePositions(Greeting(customerName), ItemLines(items), TotalLine(total), NotesTail(notes));
  }

  /** `_build_message` lays the message out as: the greeting, a blank line,
      one line per served item in cart order, a blank line, the total, and,
      when notes were given, a blank line and the notes. Splitting the
      message at its newlines recovers exactly those lines, provided the
      user-supplied texts hold no newline themselves. */
  lemma MessageLayout(customerName: string, items: seq<OkItem>, total: Dec, notes: string)
    requires NoChar(customerName, '\n') && NoChar(notes, '\n')
    requires forall k :: 0 <= k < |items| ==> NoChar(items[k].name, '\n')
    ensures var lines := Split(BuildMessage(customerName, items, total, notes), '\n');
            && |lines| == |items| + (if notes != "" then 6 else 4)
            && lines[0] == Greeting(customerName) && lines[1] == ""
            && (forall k :: 0 <= k < |items| ==> lines[2 + k] == ItemLine(items[k]))
            && lines[|items| + 2] == "" && lines[|items| + 3] == TotalLine(total)
            && (notes != "" ==> lines[|items| + 4] == "" && lines[|items| + 5] == NotesLine(notes))
  {
    MessageLinesNoNewline(customerName, items, total, notes);
    SplitJoin(MessageLines(customerName, items, total, notes), '\n');
    MessageLinesShape(customerName, items, total, notes);
  }

  /** The deep link is empty exactly when no phone is configured. Otherwise
      it starts with the wa.me prefix, the segment up to the first `?` is the
      phone's digits in order, and the rest is `?text=` and the quoted
      message. */
  lemma DeepLinkParts(setting: Option<string>, message: string, quote: Quoter)
    ensures DeepLink(setting, message, quote) == "" <==> setting.None? || setting.value == ""
    ensures setting.Some? && setting.value != "" ==>
              var u := DeepLink(setting, message, quote);
              var rest := u[|WA_PREFIX|..];
              && u[..|WA_PREFIX|] == WA_PREFIX
              && !NoChar(rest, '?')
              && rest[..FirstIndex(rest, '?')] == DigitsOf(setting.value)
              && rest[FirstIndex(rest, '?')..] == WA_QUERY + quote(message)
  {
    if setting.Some? && setting.value != "" {
      var digits := DigitsOf(setting.value);
      var u := WhatsappUrl(setting.value, message, quote);
      var rest := digits + (WA_QUERY + quote(message));
      assert u == WA_PREFIX + rest;
      assert u[|WA_PREFIX|..] == rest;
      assert rest[..|digits|] == digits;
      assert NoChar(digits, '?') by {
        forall i | 0 <= i < |digits| ensures digits[i] != '?' {
          assert IsDigit(digits[i]);
        }
      }
      FirstIndexAt(rest, '?', |digits|);
    }
  }

  /** `Product.is_in_stock()` is the checkout's test for a single unit, and
      no more: a product in stock can still fail a line that asks for more
      than it has. */
  lemma InStockIsOneUnit(p: Product)
    ensures IsInStock(p) <==> Fulfillable(p, 1)
  {
  }

  lemma InStockIsNotEnough()
    ensures var widget := Product("Widget", "", 7990, 1);
            IsInStock(widget) && !Fulfillable(widget, 2)
  {
  }

  /** The sum of the subtotals the message lists. */
  function ListedTotal(items: seq<OkItem>): int {
    if |items| == 0 then 0
    else ListedTotal(items[..|items| - 1]) + CentsOf(items[|items| - 1].subtotal)
  }

  /** The total is the sum of the subtotals of the served lines: the lines
      the message lists add up to the total it states, and a line that
      cannot be served contributes nothing. */
  lemma {:induction false} TotalIsListedSum(cart: seq<CartItem>, products: map<Uuid, Product>)
    requires AllPresent(cart, products)
    ensures InStockTotal(cart, products) == ListedTotal(OkItems(cart, products))
  {
    if |cart| > 0 {
      var front := cart[..|cart| - 1];
      assert AllPresent(front, products);
      TotalIsListedSum(front, products);
      var item := cart[|cart| - 1];
      var p := products[item.productId];
      var amount := p.price * item.qty;
      var xs := OkItems(front, products);
      if Fulfillable(p, item.qty) {
        var it := OkItem(p.name, item.qty, FromCents(p.price), FromCents(amount));
        assert OkItems(cart, products) == xs + [it];
        assert (xs + [it])[..|xs|] == xs;
        assert ListedTotal(xs + [it]) == ListedTotal(xs) + amount;
        assert InStockTotal(cart, products) == InStockTotal(front, products) + amount;
      } else {
        assert OkItems(cart, products) == xs;
        assert InStockTotal(cart, products) == InStockTotal(front, products);
      }
    }
  }
}
