/** Orders and the invoices they became: what an order's status says about its rows
    and its invoice (sales/wholesale_service.py:113-191, 212-288, 332-343). */
module OrderLinks {
  import opened Prelude
  import opened Stock
  import opened StockLines
  import opened Documents
  import opened Settlement
  import opened Bookkeeping
  import opened Catalogue
  import opened SaleRules
  import opened OrderRules
  import Numbering
  import Registers
  import opened Runs

  /** Item amounts add up to the order's totals. */
  function ItemTotals(items: seq<OrderItem>): Totals {
    if items == [] then Totals(0, 0, 0)
    else
      var t, i := ItemTotals(items[..|items| - 1]), items[|items| - 1];
      Totals(t.subtotal + i.net, t.tax + i.tax, t.grand + i.total)
  }

  predicate ItemsAre(items: seq<OrderItem>, reserved: bool, dispatched: bool) {
    forall i :: 0 <= i < |items| ==>
      && items[i].reservedQuantity == (if reserved then items[i].quantity else 0)
      && items[i].dispatchedQuantity == (if dispatched then items[i].quantity else 0)
  }

  predicate IsInvoiceOf(inv: Invoice, o: SalesOrder) {
    && inv.customer == Some(o.customer) && inv.branch == o.branch && inv.channel == WholesaleChannel
    && inv.subtotal == o.subtotal && inv.taxTotal == o.taxTotal && inv.grandTotal == o.grandTotal
  }

  /** A quotation reserves nothing; a confirmed order has reserved all its lines and
      shipped none; an invoiced one has shipped them all, and its own invoice charges
      exactly its totals. Reserved quantities are not cleared by shipping. No other
      status occurs. */
  ghost predicate OrderStateOk(o: SalesOrder, invoices: seq<Invoice>) {
    && ItemTotals(o.items) == Totals(o.subtotal, o.taxTotal, o.grandTotal)
    && match o.status
       case Quotation => o.invoice.None? && ItemsAre(o.items, false, false)
       case Confirmed => o.invoice.None? && ItemsAre(o.items, true, false)
       case Invoiced =>
         && ItemsAre(o.items, true, true)
         && o.invoice.Some? && o.invoice.value < |invoices| && IsInvoiceOf(invoices[o.invoice.value], o)
       case _ => false
  }

  ghost predicate OrdersLinked(b: Books) {
    && (forall i :: 0 <= i < |b.orders| ==> OrderStateOk(b.orders[i], b.invoices))
    && (forall i, j :: 0 <= i < j < |b.orders| && b.orders[i].invoice.Some? ==>
          b.orders[i].invoice != b.orders[j].invoice)
  }

  // --- What each step writes -----------------------------------------------------------------

  lemma {:induction false} TotalsAfter(items: seq<OrderItem>, i: OrderItem)
    ensures ItemTotals(items + [i])
         == Totals(ItemTotals(items).subtotal + i.net, ItemTotals(items).tax + i.tax, ItemTotals(items).grand + i.total)
  {
    assert (items + [i])[..|items|] == items;
  }

  lemma {:induction false} ItemAdds(products: map<Id, Product>, l: CartLine, reserved: bool, t: Totals)
    ensures var i := ItemOf(products, l, reserved);
            && AddLine(t, PriceOf(products, l, Dealer)) == Totals(t.subtotal + i.net, t.tax + i.tax, t.grand + i.total)
            && i.quantity == l.quantity && i.reservedQuantity == (if reserved then l.quantity else 0)
            && i.dispatchedQuantity == 0
  {
    hide PriceOf;
  }

  lemma {:induction false} LastLine(products: map<Id, Product>, lines: seq<CartLine>, reserved: bool)
    requires lines != []
    ensures var front, last := lines[..|lines| - 1], lines[|lines| - 1];
            && ItemsOf(products, lines, reserved)
               == ItemsOf(products, front, reserved) + [ItemOf(products, last, reserved)]
            && CartTotals(products, lines, Dealer)
               == AddLine(CartTotals(products, front, Dealer), PriceOf(products, last, Dealer))
  {
    hide ItemOf, AddLine, PriceOf;
  }

  /** The order's totals are those of its items, and nothing has shipped yet. */
  lemma {:induction false} OrderAddsUp(products: map<Id, Product>, lines: seq<CartLine>, reserved: bool)
    ensures ItemTotals(ItemsOf(products, lines, reserved)) == CartTotals(products, lines, Dealer)
    ensures ItemsAre(ItemsOf(products, lines, reserved), reserved, false)
  {
    if lines != [] {
      hide *;
      var front, last := lines[..|lines| - 1], lines[|lines| - 1];
      LastLine(products, lines, reserved);
      OrderAddsUp(products, front, reserved);
      ItemAdds(products, last, reserved, CartTotals(products, front, Dealer));
      TotalsAfter(ItemsOf(products, front, reserved), ItemOf(products, last, reserved));
      ItemsAreAfter(ItemsOf(products, front, reserved), ItemOf(products, last, reserved), reserved);
    }
  }

  lemma {:induction false} ItemsAreAfter(items: seq<OrderItem>, i: OrderItem, reserved: bool)
    requires ItemsAre(items, reserved, false)
    requires i.reservedQuantity == (if reserved then i.quantity else 0) && i.dispatchedQuantity == 0
    ensures ItemsAre(items + [i], reserved, false)
  {
  }

  lemma {:induction false} ShippingAddsUp(items: seq<OrderItem>)
    ensures ItemTotals(ShippedItems(items)) == ItemTotals(items)
    ensures ItemsAre(items, true, false) ==> ItemsAre(ShippedItems(items), true, true)
  {
    if items != [] {
      var n := |items| - 1;
      ShippingAddsUp(items[..n]);
      assert ShippedItems(items)[..n] == ShippedItems(items[..n]);
    }
  }

  /** Invoices may be added, and paid, without touching what orders need of them. */
  ghost predicate InvoicesKept(before: seq<Invoice>, after: seq<Invoice>) {
    && |before| <= |after|
    && forall i :: 0 <= i < |before| ==>
         && after[i].customer == before[i].customer && after[i].branch == before[i].branch
         && after[i].channel == before[i].channel && after[i].subtotal == before[i].subtotal
         && after[i].taxTotal == before[i].taxTotal && after[i].grandTotal == before[i].grandTotal
  }

  lemma {:induction false} KeptLinks(b: Books, after: Books)
    requires OrdersLinked(b) && after.orders == b.orders && InvoicesKept(b.invoices, after.invoices)
    ensures OrdersLinked(after)
  {
    hide ItemTotals, ItemsAre;
    forall i | 0 <= i < |b.orders| ensures OrderStateOk(after.orders[i], after.invoices) {
      assert OrderStateOk(b.orders[i], b.invoices);
    }
  }

  lemma {:induction false} PlaceLinks(b: Books, products: map<Id, Product>, req: OrderRequest)
    requires OrdersLinked(b)
    ensures OrdersLinked(ApplyOrder(b, products, req))
  {
    OrderAddsUp(products, req.lines, !req.isQuotation);
    hide ItemTotals, ItemsAre, CartTotals, ItemsOf, Numbering.NextOf, Numbering.Advanced;
    var after := ApplyOrder(b, products, req);
    forall i | 0 <= i < |after.orders| ensures OrderStateOk(after.orders[i], after.invoices) {
      assert i < |b.orders| ==> OrderStateOk(b.orders[i], b.invoices);
    }
  }

  lemma {:induction false} DispatchLinks(b: Books, id: nat, date: Date)
    requires OrdersLinked(b) && CanDispatch(b, id)
    ensures OrdersLinked(ApplyOrderDispatch(b, id, date))
  {
    var after := ApplyOrderDispatch(b, id, date);
    assert OrderStateOk(b.orders[id], b.invoices);
    DispatchStates(b, id, date);
    hide ItemTotals, ItemsAre, ShippedItems, OrderInvoice, Numbering.Advanced, DispatchJournal;
    forall i, j | 0 <= i < j < |after.orders| && after.orders[i].invoice.Some?
      ensures after.orders[i].invoice != after.orders[j].invoice
    {
      assert OrderStateOk(b.orders[i], b.invoices) && OrderStateOk(b.orders[j], b.invoices);
    }
  }

  lemma {:induction false} DispatchStates(b: Books, id: nat, date: Date)
    requires OrdersLinked(b) && CanDispatch(b, id)
    ensures var after := ApplyOrderDispatch(b, id, date);
            forall i :: 0 <= i < |after.orders| ==> OrderStateOk(after.orders[i], after.invoices)
  {
    var after := ApplyOrderDispatch(b, id, date);
    ShippingAddsUp(b.orders[id].items);
    hide ItemTotals, ItemsAre, ShippedItems, Numbering.NextOf, Numbering.Advanced, DispatchJournal;
    forall i | 0 <= i < |after.orders| ensures OrderStateOk(after.orders[i], after.invoices) {
      assert OrderStateOk(b.orders[i], b.invoices);
    }
  }

  lemma {:induction false} SaleLinks(b: Books, products: map<Id, Product>, req: SaleRequest)
    requires OrdersLinked(b)
    ensures OrdersLinked(ApplyRetailSale(b, products, req))
  {
    hide OrdersLinked, CartTotals, TenderTotal;
    KeptLinks(b, ApplyRetailSale(b, products, req));
  }

  lemma {:induction false} CollectLinks(b: Books, customer: Id, amount: int, mode: PaymentMethod, paymentDate: Date,
                                        today: Date)
    requires OrdersLinked(b)
    ensures OrdersLinked(ApplyReceipt(b, customer, amount, mode, paymentDate, today))
  {
    hide OrdersLinked, ReceiptAllocations, To, ReceiptRows, ReceiptLines;
    KeptLinks(b, ApplyReceipt(b, customer, amount, mode, paymentDate, today));
  }

  lemma {:induction false} StepLinks(w: World, step: Step)
    requires OrdersLinked(w.books) && Enabled(w, step)
    ensures OrdersLinked(Apply(w, step).books)
  {
    hide OrdersLinked, OrderOk, SaleOk, IssueLinesOk, ReserveLinesOk, DispatchLinesOk, ApplyReceipt, ApplyRetailSale,
         ApplyOrder, ApplyOrderDispatch, Registers.CanIssue;
    match step
    case PlaceOrder(products, _, req, _) => PlaceLinks(w.books, products, req);
    case Dispatch(id, date, _, _) => DispatchLinks(w.books, id, date);
    case Sell(products, _, req, _) => SaleLinks(w.books, products, req);
    case Collect(_, customer, amount, mode, paymentDate, today) =>
      CollectLinks(w.books, customer, amount, mode, paymentDate, today);
    case _ => KeptLinks(w.books, Apply(w, step).books);
  }

  lemma {:induction false} RunLinks(w: World, steps: seq<Step>)
    requires OrdersLinked(w.books) && RunOk(w, steps)
    ensures OrdersLinked(After(w, steps).books)
    decreases |steps|
  {
    if steps != [] {
      hide OrdersLinked, Enabled, Apply;
      StepLinks(w, steps[0]);
      RunLinks(Apply(w, steps[0]), steps[1..]);
    }
  }

  /** In every reachable world each order is in exactly the state its status says,
      and no invoice belongs to two orders. */
  lemma {:induction false} OrdersMatchInvoices(steps: seq<Step>, i: nat)
    requires RunOk(NOTHING_YET, steps) && i < |After(NOTHING_YET, steps).books.orders|
    ensures var b := After(NOTHING_YET, steps).books;
            && OrderStateOk(b.orders[i], b.invoices)
            && (b.orders[i].invoice.Some? ==>
                  forall j :: 0 <= j < |b.orders| && j != i ==> b.orders[j].invoice != b.orders[i].invoice)
  {
    RunLinks(NOTHING_YET, steps);
  }
}
