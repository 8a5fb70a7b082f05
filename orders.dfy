/** The order invoice export (`exportOrderInvoicePDF` in
    app/lib/api/orders/orders.ts): one table row per item with its amount,
    the subtotal computed while the rows are built, the totals taken from the
    order when it carries them, and a discount row when the order's total is
    below its subtotal. The document is modelled by its contents; pdfmake's
    rendering and the download are not part of this model. */
module Orders {
  import opened Common
  import opened PdfExport

  /** The restaurant fields the invoice header reads. */
  datatype Restaurant = Restaurant(name: Option<string>, address: Option<string>)

  /** An element of `order.items`; `None` fields are absent (a `null`
      element reads like one with every field absent). */
  datatype OrderItem = OrderItem(dishId: Option<string>, name: Option<string>, quantity: Option<Num>, price: Option<Num>)

  /** `Partial<Order> & { id?: string }`; `items` is `None` when it is not
      an array. */
  datatype Order = Order(
    id: Option<string>,
    clientCui: Option<string>,
    restaurant: Option<Restaurant>,
    items: Option<seq<OrderItem>>,
    total: Option<Num>,
    subtotal: Option<Num>,
    promotionApplied: Option<Promotion>)

  /** `Array.isArray(order.items) ? order.items : []`. */
  function ItemsOf(order: Order): seq<OrderItem> {
    order.items.GetOr([])
  }

  /** `Number(it?.quantity ?? 0)`. */
  function Quantity(it: OrderItem): Num {
    it.quantity.GetOr(Finite(0.0))
  }

  /** `Number(it?.price ?? 0)`. */
  function Price(it: OrderItem): Num {
    it.price.GetOr(Finite(0.0))
  }

  /** The line amount: quantity times price, a non-finite factor counting 0. */
  function LineAmount(it: OrderItem): real {
    OrZero(Quantity(it)) * OrZero(Price(it))
  }

  /** `String(it?.name ?? it?.dishId ?? 'Ítem')`: an empty name is kept. */
  function ItemDescription(it: OrderItem): (d: string)
    ensures it.name.Some? ==> d == it.name.value
    ensures it.name.None? && it.dishId.Some? ==> d == it.dishId.value
    ensures it.name.None? && it.dishId.None? ==> d == "Ítem"
  {
    it.name.GetOr(it.dishId.GetOr("Ítem"))
  }

  /** The table row of one item. */
  function ItemRow(it: OrderItem): Row {
    LineRow(ItemDescription(it), Quantity(it), Price(it), Finite(LineAmount(it)))
  }

  /** The item rows, in item order. */
  function ItemRows(items: seq<OrderItem>): (rows: seq<Row>)
    ensures |rows| == |items|
    ensures forall k :: 0 <= k < |items| ==> rows[k] == ItemRow(items[k])
  {
    if |items| == 0 then [] else ItemRows(items[..|items| - 1]) + [ItemRow(items[|items| - 1])]
  }

  /** The sum of the line amounts, accumulated from the first item on. */
  function SumLines(items: seq<OrderItem>): (sum: real)
    ensures (forall k :: 0 <= k < |items| ==> LineAmount(items[k]) == 0.0) ==> sum == 0.0
  {
    if |items| == 0 then 0.0 else SumLines(items[..|items| - 1]) + LineAmount(items[|items| - 1])
  }

  /** The `for…of` loop: the header row, one row per item, and the running
      subtotal. */
  method BuildOrderTable(items: seq<OrderItem>) returns (table: seq<Row>, computedSubtotal: real)
    ensures table == [HeaderRow] + ItemRows(items)
    ensures computedSubtotal == SumLines(items)
  {
    table := [HeaderRow];
    computedSubtotal := 0.0;
    var i := 0;
    while i < |items|
      invariant 0 <= i <= |items|
      invariant table == [HeaderRow] + ItemRows(items[..i])
      invariant computedSubtotal == SumLines(items[..i])
    {
      var it := items[i];
      var line := OrZero(Quantity(it)) * OrZero(Price(it));
      computedSubtotal := computedSubtotal + line;
      table := table + [LineRow(ItemDescription(it), Quantity(it), Price(it), Finite(line))];
      assert items[..i + 1][..i] == items[..i];
      assert SumLines(items[..i + 1]) == SumLines(items[..i]) + LineAmount(it);
      i := i + 1;
    }
    assert items[..|items|] == items;
  }

  /** The three figures of the totals block. */
  datatype Totals = Totals(subtotal: Num, total: Num, discount: Num)

  /** `subtotal ?? computedSubtotal`, `total ?? subtotal` and
      `Math.max(0, subtotal - total)`. */
  function OrderTotals(order: Order, computedSubtotal: real): (t: Totals)
    ensures t.subtotal == order.subtotal.GetOr(Finite(computedSubtotal))
    ensures t.total == order.total.GetOr(t.subtotal)
  {
    var subtotal := order.subtotal.GetOr(Finite(computedSubtotal));
    var total := order.total.GetOr(subtotal);
    Totals(subtotal, total, MaxZero(Sub(subtotal, total)))
  }

  /** The invoice as the document lays it out. */
  datatype OrderInvoice = OrderInvoice(
    title: string,
    vendorName: string,
    vendorAddress: string,
    dateLine: string,
    orderLine: string,
    clientLine: string,
    table: seq<Row>,
    totals: seq<TotalsLine>,
    fileName: string)

  /** `opts?.restaurant || order.restaurant || null`. */
  function InvoiceRestaurant(order: Order, optsRestaurant: Option<Restaurant>): Option<Restaurant> {
    if optsRestaurant.Some? then optsRestaurant else order.restaurant
  }

  function VendorName(r: Option<Restaurant>): string {
    if r.Some? then Or(r.value.name, "Restaurante") else "Restaurante"
  }

  function VendorAddress(r: Option<Restaurant>): string {
    if r.Some? then Or(r.value.address, "") else ""
  }

  /** The discount row the table ends with when the discount is positive. */
  function DiscountRows(order: Order, discount: Num): seq<Row> {
    if IsPositive(discount) then [DiscountRow(DiscountLabel(PromotionName(order.promotionApplied)), discount)] else []
  }

  function OrderFileName(order: Order, isLetterOrNumber: char -> bool): string {
    "factura_orden_" + SafeId(order.id, "orden", isLetterOrNumber) + ".pdf"
  }

  /** The document's table: header, item rows, and the discount row. */
  function OrderTable(order: Order): seq<Row> {
    var items := ItemsOf(order);
    [HeaderRow] + ItemRows(items) + DiscountRows(order, OrderTotals(order, SumLines(items)).discount)
  }

  /** The document's totals block. */
  function OrderTotalsBlock(order: Order): seq<TotalsLine> {
    var t := OrderTotals(order, SumLines(ItemsOf(order)));
    TotalsBlock(t.subtotal, t.discount, t.total)
  }

  /** The document exported for `order` at the instant `now`. */
  function OrderInvoiceOf(order: Order, optsRestaurant: Option<Restaurant>, now: Instant, isLetterOrNumber: char -> bool): OrderInvoice {
    var restaurant := InvoiceRestaurant(order, optsRestaurant);
    OrderInvoice(
      "Factura de Orden",
      VendorName(restaurant),
      VendorAddress(restaurant),
      "Fecha: " + FormatDisplayDate(DateValue(Some(now))),
      "Orden: " + Or(order.id, NO_VALUE),
      "Cliente: " + Or(order.clientCui, NO_VALUE),
      OrderTable(order),
      OrderTotalsBlock(order),
      OrderFileName(order, isLetterOrNumber))
  }

  /** `exportOrderInvoicePDF`: fails outside a browser, otherwise builds the
      table in one pass over the items and assembles the document. */
  method ExportOrderInvoice(order: Order, optsRestaurant: Option<Restaurant>, isBrowser: bool, now: Instant, isLetterOrNumber: char -> bool)
    returns (r: Result<OrderInvoice, string>)
    ensures !isBrowser ==> r == Failure(BROWSER_ONLY)
    ensures isBrowser ==> r == Success(OrderInvoiceOf(order, optsRestaurant, now, isLetterOrNumber))
  {
    if !isBrowser {
      return Failure(BROWSER_ONLY);
    }
    var restaurant := InvoiceRestaurant(order, optsRestaurant);
    var table, computedSubtotal := BuildOrderTable(ItemsOf(order));
    var t := OrderTotals(order, computedSubtotal);
    if IsPositive(t.discount) {
      table := table + [DiscountRow(DiscountLabel(PromotionName(order.promotionApplied)), t.discount)];
    }
    assert table == [HeaderRow] + ItemRows(ItemsOf(order)) + DiscountRows(order, t.discount);
    assert table == OrderTable(order);
    var invoice := OrderInvoice(
      "Factura de Orden",
      VendorName(restaurant),
      VendorAddress(restaurant),
      "Fecha: " + FormatDisplayDate(DateValue(Some(now))),
      "Orden: " + Or(order.id, NO_VALUE),
      "Cliente: " + Or(order.clientCui, NO_VALUE),
      table,
      TotalsBlock(t.subtotal, t.discount, t.total),
      OrderFileName(order, isLetterOrNumber));
    return Success(invoice);
  }

  // ---- properties ----

  /** The discount is never negative, and it is positive exactly when both
      figures are numbers and the total is below the subtotal; otherwise it
      is 0, or NaN when a figure is NaN. */
  lemma DiscountIsShortfall(order: Order, computedSubtotal: real)
    ensures var t := OrderTotals(order, computedSubtotal);
      && (t.discount.Finite? <==> t.subtotal.Finite? && t.total.Finite?)
      && (t.discount.Finite? ==> t.discount.value >= 0.0)
      && (IsPositive(t.discount) <==> t.subtotal.Finite? && t.total.Finite? && t.total.value < t.subtotal.value)
      && (IsPositive(t.discount) ==> t.discount.value == t.subtotal.value - t.total.value)
  {
  }

  /** Without a total on the order there is no discount: the total falls
      back to the subtotal. */
  lemma NoTotalNoDiscount(order: Order, computedSubtotal: real)
    requires order.total.None?
    ensures var t := OrderTotals(order, computedSubtotal);
      t.total == t.subtotal && !IsPositive(t.discount)
  {
  }

  /** Without figures on the order both are the computed subtotal. */
  lemma NoFiguresUseComputed(order: Order, computedSubtotal: real)
    requires order.total.None? && order.subtotal.None?
    ensures OrderTotals(order, computedSubtotal) == Totals(Finite(computedSubtotal), Finite(computedSubtotal), Finite(0.0))
  {
  }

  /** The running sum splits over concatenation. */
  lemma {:induction false} SumLinesAppend(a: seq<OrderItem>, b: seq<OrderItem>)
    ensures SumLines(a + b) == SumLines(a) + SumLines(b)
    decreases |b|
  {
    if |b| == 0 {
      assert a + b == a;
    } else {
      var b' := b[..|b| - 1];
      assert (a + b)[..|a + b| - 1] == a + b';
      assert (a + b)[|a + b| - 1] == b[|b| - 1];
      SumLinesAppend(a, b');
    }
  }

  /** With no negative quantity or price, the computed subtotal is not
      negative. */
  lemma {:induction false} SumLinesNonNegative(items: seq<OrderItem>)
    requires forall k :: 0 <= k < |items| ==> OrZero(Quantity(items[k])) >= 0.0 && OrZero(Price(items[k])) >= 0.0
    ensures SumLines(items) >= 0.0
    decreases |items|
  {
    if |items| > 0 {
      var init := items[..|items| - 1];
      assert forall k :: 0 <= k < |init| ==> init[k] == items[k];
      SumLinesNonNegative(init);
      var last := items[|items| - 1];
      assert LineAmount(last) >= 0.0;
    }
  }

  /** An item whose quantity or price is missing or not a number adds
      nothing. */
  lemma NonNumericLineIsZero(it: OrderItem)
    requires Quantity(it).NaN? || Price(it).NaN?
    ensures LineAmount(it) == 0.0
  {
  }

  /** The document's table is the header, one row per item in order, and a
      final discount row exactly when the totals block shows a discount. */
  lemma InvoiceTableShape(order: Order, optsRestaurant: Option<Restaurant>, now: Instant, isLetterOrNumber: char -> bool)
    ensures var doc := OrderInvoiceOf(order, optsRestaurant, now, isLetterOrNumber);
      var items := ItemsOf(order);
      && doc.table[0] == HeaderRow
      && (forall k :: 0 <= k < |items| ==> doc.table[k + 1] == ItemRow(items[k]))
      && (|doc.table| == |items| + 2 <==> |doc.totals| == 3)
      && (|doc.table| == |items| + 1 <==> |doc.totals| == 2)
      && (|doc.totals| == 3 ==> doc.table[|items| + 1].DiscountRow? && doc.table[|items| + 1].amount == doc.totals[1].amount)
  {
    var items := ItemsOf(order);
    var t := OrderTotals(order, SumLines(items));
    var rows := ItemRows(items);
    var extra := DiscountRows(order, t.discount);
    var table := OrderTable(order);
    assert table == [HeaderRow] + rows + extra;
    assert |extra| == (if IsPositive(t.discount) then 1 else 0);
    forall k | 0 <= k < |items| ensures table[k + 1] == ItemRow(items[k]) {
      assert table[k + 1] == rows[k];
    }
  }

  /** The header falls back to "Restaurante" and placeholders, and the file
      is named after the sanitised id, or "orden" without one. */
  lemma InvoiceHeaderFallbacks(order: Order, now: Instant, isLetterOrNumber: char -> bool)
    requires order.restaurant.None? && !Truthy(order.id) && !Truthy(order.clientCui)
    ensures var doc := OrderInvoiceOf(order, None, now, isLetterOrNumber);
      && doc.vendorName == "Restaurante" && doc.vendorAddress == ""
      && doc.orderLine == "Orden: —" && doc.clientLine == "Cliente: —"
      && doc.fileName == "factura_orden_" + Sanitize("orden", isLetterOrNumber) + ".pdf"
  {
    var doc := OrderInvoiceOf(order, None, now, isLetterOrNumber);
    assert InvoiceRestaurant(order, None).None?;
    assert doc.vendorName == VendorName(None) && doc.vendorAddress == VendorAddress(None);
    assert doc.orderLine == "Orden: " + Or(order.id, NO_VALUE);
    assert doc.clientLine == "Cliente: " + Or(order.clientCui, NO_VALUE);
    assert doc.fileName == OrderFileName(order, isLetterOrNumber);
  }
}
