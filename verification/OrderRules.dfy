/** What orders and dispatches are, on values: when each is accepted, what it
    writes, and how the pooled reservations follow the confirmed orders
    (sales/wholesale_service.py:86-330). */
module OrderRules {
  import opened Prelude
  import opened Stock
  import opened StockLines
  import opened Fulfilment
  import opened Documents
  import opened Numbering
  import opened Registers
  import opened Bookkeeping
  import opened Catalogue
  import Fefo
  import MapSum

  datatype OrderRequest = OrderRequest(
    warehouse: Id,
    branch: Option<Id>,
    customer: Id,
    date: Date,
    lines: seq<CartLine>,
    isQuotation: bool,
    creditOverride: bool,
    asOf: Date)

  /** The order rows of a cart; confirming sets what each row reserved. */
  function ItemsOf(products: map<Id, Product>, lines: seq<CartLine>, reserved: bool): (r: seq<OrderItem>)
    ensures |r| == |lines|
    ensures forall i :: 0 <= i < |lines| ==> r[i].product == lines[i].product && r[i].quantity == lines[i].quantity
  {
    if lines == [] then []
    else ItemsOf(products, lines[..|lines| - 1], reserved) + [ItemOf(products, lines[|lines| - 1], reserved)]
  }

  function ItemOf(products: map<Id, Product>, l: CartLine, reserved: bool): OrderItem {
    var held := if reserved then l.quantity else 0;
    match PriceOf(products, l, Dealer)
    case None => OrderItem(l.product, l.quantity, 0, 0, 0, 0, held, 0)
    case Some(p) => OrderItem(l.product, l.quantity, p.unitPrice, p.net, p.tax, p.total, held, 0)
  }

  lemma {:induction false} ItemsNext(products: map<Id, Product>, lines: seq<CartLine>, i: nat, reserved: bool)
    requires i < |lines|
    ensures ItemsOf(products, lines[..i + 1], reserved)
         == ItemsOf(products, lines[..i], reserved) + [ItemOf(products, lines[i], reserved)]
  {
    assert lines[..i + 1][..i] == lines[..i];
  }

  /** The stock lines of an order's items. */
  function ItemLines(items: seq<OrderItem>): (r: seq<Line>)
    ensures |r| == |items|
    ensures forall i :: 0 <= i < |items| ==> r[i] == Line(items[i].product, items[i].quantity)
  {
    if items == [] then []
    else ItemLines(items[..|items| - 1]) + [Line(items[|items| - 1].product, items[|items| - 1].quantity)]
  }

  function ScopeOf(req: OrderRequest): Scope {
    Scope(if req.isQuotation then QuotationDocument else OrderDocument, req.branch)
  }

  function NewOrder(b: Books, products: map<Id, Product>, req: OrderRequest): SalesOrder {
    var t := CartTotals(products, req.lines, Dealer);
    SalesOrder(req.branch, NextOf(b.numbers, b.codes, ScopeOf(req)), req.warehouse, req.customer, req.date,
               if req.isQuotation then Quotation else Confirmed,
               ItemsOf(products, req.lines, !req.isQuotation), t.subtotal, t.tax, t.grand, None)
  }

  /** Invoices only: orders confirmed but not yet invoiced do not count. */
  predicate LimitOk(invoices: seq<Invoice>, customers: map<Id, Customer>, req: OrderRequest, total: int)
    requires req.customer in customers
  {
    var limit := customers[req.customer].creditLimit;
    req.creditOverride || limit <= 0 || CustomerOutstanding(invoices, req.customer) + total <= limit
  }

  /** The customer exists, the order's number is free at an existing branch and the
      cart is priceable; a confirmed order also fits the limit and can be reserved. */
  ghost predicate OrderOk(b: Books, s: StockState, products: map<Id, Product>, customers: map<Id, Customer>,
                          req: OrderRequest) {
    && req.lines != [] && req.customer in customers
    && CanIssue(b, ScopeOf(req))
    && CartOk(products, req.lines)
    && (!req.isQuotation ==>
          && LimitOk(b.invoices, customers, req, CartTotals(products, req.lines, Dealer).grand)
          && Enough(s, req.warehouse, LinesOf(req.lines), req.asOf))
  }

  function ApplyOrder(b: Books, products: map<Id, Product>, req: OrderRequest): Books {
    var order := NewOrder(b, products, req);
    b.(orders := b.orders + [order], numbers := Advanced(b.numbers, b.codes, ScopeOf(req)))
  }

  /** One row of an order, in the request's and the product row's own terms. */
  ghost predicate IsItemOf(i: OrderItem, products: map<Id, Product>, l: CartLine, reserved: bool) {
    && i.product == l.product && i.quantity == l.quantity && i.dispatchedQuantity == 0
    && i.reservedQuantity == (if reserved then l.quantity else 0)
    && l.product in products
    && IsCharge(products[l.product], l, Dealer, i.unitPrice, i.net, i.tax, i.total)
  }

  /** The order likewise. */
  ghost predicate IsOrderOf(o: SalesOrder, products: map<Id, Product>, req: OrderRequest) {
    && o.branch == req.branch && o.warehouse == req.warehouse && o.customer == req.customer && o.date == req.date
    && o.status == (if req.isQuotation then Quotation else Confirmed) && o.invoice.None?
    && |o.items| == |req.lines|
    && (forall i :: 0 <= i < |o.items| ==> IsItemOf(o.items[i], products, req.lines[i], !req.isQuotation))
    && IsCartCharge(products, req.lines, Dealer, Totals(o.subtotal, o.taxTotal, o.grandTotal))
  }

  lemma {:induction false} ItemsAreCharged(products: map<Id, Product>, lines: seq<CartLine>, reserved: bool)
    requires CartOk(products, lines)
    ensures var items := ItemsOf(products, lines, reserved);
            forall i :: 0 <= i < |items| ==> IsItemOf(items[i], products, lines[i], reserved)
  {
    if lines != [] {
      var n := |lines| - 1;
      ItemsAreCharged(products, lines[..n], reserved);
      PricedLineOk(products, lines[n], Dealer);
      LineIsCharged(products, lines[n], Dealer);
      hide IsCharge, PriceOf;
    }
  }

  lemma {:induction false} OrderIsCharged(b: Books, products: map<Id, Product>, req: OrderRequest)
    requires CartOk(products, req.lines)
    ensures IsOrderOf(NewOrder(b, products, req), products, req)
  {
    ItemsAreCharged(products, req.lines, !req.isQuotation);
    CartIsCharged(products, req.lines, Dealer);
    CartTotalsAddUp(products, req.lines, Dealer);
    hide IsItemOf, IsCartCharge, CartTotals, CartOk;
  }

  // --- Dispatch -----------------------------------------------------------------------------

  predicate CanDispatch(b: Books, id: nat) {
    id < |b.orders| && b.orders[id].status == Confirmed
  }

  function ShipScope(order: SalesOrder): Scope { Scope(InvoiceDocument, order.branch) }

  function OrderInvoice(b: Books, order: SalesOrder, date: Date): Invoice {
    Invoice(order.branch, NextOf(b.numbers, b.codes, ShipScope(order)), Some(order.customer), date, WholesaleChannel,
            order.subtotal, order.taxTotal, order.grandTotal, 0, Credit)
  }

  function ShippedItems(items: seq<OrderItem>): (r: seq<OrderItem>)
    ensures |r| == |items|
    ensures forall i :: 0 <= i < |items| ==> r[i] == items[i].(dispatchedQuantity := items[i].quantity)
  {
    if items == [] then []
    else
      var last := items[|items| - 1];
      ShippedItems(items[..|items| - 1]) + [last.(dispatchedQuantity := last.quantity)]
  }

  lemma {:induction false} ShippedNone()
    ensures ShippedItems([]) == []
  {
  }

  lemma {:induction false} ShippedSnoc(items: seq<OrderItem>, i: nat)
    requires i < |items|
    ensures ShippedItems(items[..i + 1])
         == ShippedItems(items[..i]) + [items[i].(dispatchedQuantity := items[i].quantity)]
  {
    assert items[..i + 1][..i] == items[..i];
  }

  /** The invoice of a dispatch: the order's customer, branch and totals, on credit, at
      the day of the dispatch. */
  predicate IsShipmentOf(inv: Invoice, o: SalesOrder, date: Date) {
    && inv.branch == o.branch && inv.customer == Some(o.customer) && inv.date == date && inv.channel == WholesaleChannel
    && inv.subtotal == o.subtotal && inv.taxTotal == o.taxTotal && inv.grandTotal == o.grandTotal
    && inv.paid == 0 && inv.status == Credit
  }

  function ShippedOrder(order: SalesOrder, invoice: nat): SalesOrder {
    order.(status := Invoiced, items := ShippedItems(order.items), invoice := Some(invoice))
  }

  function ApplyOrderDispatch(b: Books, id: nat, date: Date): Books
    requires id < |b.orders|
  {
    var order := b.orders[id];
    var inv := OrderInvoice(b, order, date);
    ApplyDispatch(b, inv).(
      orders := b.orders[id := ShippedOrder(order, |b.invoices|)],
      numbers := Advanced(b.numbers, b.codes, ShipScope(order)))
  }

  // --- What every order keeps -----------------------------------------------------------------

  predicate OrderRowOk(o: SalesOrder) {
    && AllPositive(ItemLines(o.items))
    && 0 <= o.subtotal && 0 <= o.taxTotal && o.grandTotal == o.subtotal + o.taxTotal
    && (o.subtotal == 0 ==> o.grandTotal == 0)
  }

  ghost predicate OrdersOk(orders: seq<SalesOrder>) {
    forall i :: 0 <= i < |orders| ==> OrderRowOk(orders[i])
  }

  lemma {:induction false} ItemLinesAre(products: map<Id, Product>, lines: seq<CartLine>, reserved: bool)
    ensures ItemLines(ItemsOf(products, lines, reserved)) == LinesOf(lines)
  {
  }

  lemma {:induction false} NewOrderOk(b: Books, products: map<Id, Product>, req: OrderRequest)
    requires CartOk(products, req.lines)
    ensures OrderRowOk(NewOrder(b, products, req))
  {
    ItemLinesAre(products, req.lines, !req.isQuotation);
    CartPositive(products, req.lines);
    CartTotalsAddUp(products, req.lines, Dealer);
  }

  lemma {:induction false} OrdersSnoc(orders: seq<SalesOrder>, o: SalesOrder)
    requires OrdersOk(orders) && OrderRowOk(o)
    ensures OrdersOk(orders + [o])
  {
  }

  lemma {:induction false} DispatchKeepsOrders(b: Books, id: nat, date: Date)
    requires OrdersOk(b.orders) && id < |b.orders|
    ensures OrdersOk(ApplyOrderDispatch(b, id, date).orders)
  {
    var order := b.orders[id];
    assert OrderRowOk(order);
    ShippedLines(order.items);
  }

  lemma {:induction false} ShippedLines(items: seq<OrderItem>)
    ensures ItemLines(ShippedItems(items)) == ItemLines(items)
  {
  }

  lemma {:induction false} OrderInvoiceOk(b: Books, order: SalesOrder, date: Date)
    requires OrderRowOk(order)
    ensures var inv := OrderInvoice(b, order, date); InvoiceOk(inv) && Priced(inv) && inv.paid == 0
    ensures var inv := OrderInvoice(b, order, date); 0 < inv.grandTotal ==> Payable(inv, [])
  {
  }

  /** Dispatching keeps the books reconciled. */
  lemma {:induction false} DispatchKeepsBooks(b: Books, id: nat, date: Date)
    requires Reconciled(b) && OrdersOk(b.orders) && id < |b.orders|
    ensures Reconciled(ApplyOrderDispatch(b, id, date))
  {
    var inv := OrderInvoice(b, b.orders[id], date);
    OrderInvoiceOk(b, b.orders[id], date);
    DispatchReconciles(b, inv);
    hide InvoiceOk, Priced, Payable, NextOf, Advanced;
    SameTables(ApplyDispatch(b, inv), ApplyOrderDispatch(b, id, date));
  }

  // --- The pool and the confirmed orders ----------------------------------------------------------

  function OrderDemand(o: SalesOrder, slot: Slot): int {
    if o.status == Confirmed then DemandAt(ItemLines(o.items), o.warehouse, slot) else 0
  }

  /** Summed quantity of the CONFIRMED orders at one slot. */
  function ConfirmedDemand(orders: seq<SalesOrder>, slot: Slot): int {
    if orders == [] then 0
    else ConfirmedDemand(orders[..|orders| - 1], slot) + OrderDemand(orders[|orders| - 1], slot)
  }

  lemma {:induction false} DemandNonNegative(o: SalesOrder, slot: Slot)
    requires OrderRowOk(o)
    ensures 0 <= OrderDemand(o, slot)
  {
    DemandMonotone(ItemLines(o.items), 0, slot.product);
  }

  /** One order's demand is part of the total. */
  lemma {:induction false} DemandWithin(orders: seq<SalesOrder>, id: nat, slot: Slot)
    requires OrdersOk(orders)
    ensures 0 <= ConfirmedDemand(orders, slot)
    ensures id < |orders| ==> OrderDemand(orders[id], slot) <= ConfirmedDemand(orders, slot)
  {
    if orders != [] {
      var n := |orders| - 1;
      DemandWithin(orders[..n], id, slot);
      DemandNonNegative(orders[n], slot);
    }
  }

  lemma {:induction false} ConfirmedSnoc(orders: seq<SalesOrder>, o: SalesOrder, slot: Slot)
    ensures ConfirmedDemand(orders + [o], slot) == ConfirmedDemand(orders, slot) + OrderDemand(o, slot)
  {
    assert (orders + [o])[..|orders|] == orders;
  }

  lemma {:induction false} ConfirmedUpdate(orders: seq<SalesOrder>, id: nat, o: SalesOrder, slot: Slot)
    requires id < |orders|
    ensures ConfirmedDemand(orders[id := o], slot)
         == ConfirmedDemand(orders, slot) - OrderDemand(orders[id], slot) + OrderDemand(o, slot)
  {
    var n := |orders| - 1;
    var after := orders[id := o];
    if id < n {
      ConfirmedUpdate(orders[..n], id, o, slot);
      assert after[..n] == orders[..n][id := o];
    } else {
      assert after[..n] == orders[..n];
    }
  }

  /** The pooled reservations are exactly the confirmed orders. */
  ghost predicate PoolIs(s: StockState, orders: seq<SalesOrder>) {
    forall slot :: HeldIn(s, slot) == ConfirmedDemand(orders, slot)
  }

  /** Whatever the other orders hold, the pool holds a confirmed order. */
  lemma {:induction false} PoolHoldsOrder(s: StockState, orders: seq<SalesOrder>, id: nat)
    requires PoolIs(s, orders) && OrdersOk(orders) && id < |orders| && orders[id].status == Confirmed
    ensures PoolHolds(s, orders[id].warehouse, ItemLines(orders[id].items))
  {
    var o := orders[id];
    forall p ensures Demand(ItemLines(o.items), p) <= HeldIn(s, Slot(o.warehouse, p)) {
      DemandWithin(orders, id, Slot(o.warehouse, p));
    }
  }

  /** In the loop of a dispatch no release ever asks for more than the pool still
      holds, transfers of reserved stock or not. */
  lemma {:induction false} NeverOverReleased(s: StockState, orders: seq<SalesOrder>, id: nat, t: StockState, i: nat,
                                             asOf: Date, ships: seq<DispatchPlan>)
    requires Projected(s) && PoolIs(s, orders) && OrdersOk(orders)
    requires id < |orders| && orders[id].status == Confirmed && i < |orders[id].items|
    requires Dispatching(s, t, orders[id].warehouse, ItemLines(orders[id].items), i, asOf, ships)
    ensures var item := orders[id].items[i];
            0 < item.quantity <= HeldIn(t, Slot(orders[id].warehouse, item.product))
  {
    var o := orders[id];
    assert OrderRowOk(o);
    PoolHoldsOrder(s, orders, id);
    NeverOverReleases(s, t, o.warehouse, ItemLines(o.items), i, asOf, ships);
  }

  /** Unreserved stock covers the expired part of what each product releases. */
  ghost predicate ExpiredIsCovered(s: StockState, o: SalesOrder, asOf: Date) {
    forall p ::
      Min(Demand(ItemLines(o.items), p), HeldExpiredIn(s, Slot(o.warehouse, p), asOf))
      <= UsableIn(s, Slot(o.warehouse, p), asOf)
  }

  /** A confirmed order ships exactly when, product by product, unreserved stock
      can stand in for the reserved part that has expired. */
  lemma {:induction false} ConfirmedShipsExactly(s: StockState, orders: seq<SalesOrder>, id: nat, asOf: Date)
    requires PoolIs(s, orders) && OrdersOk(orders) && id < |orders| && orders[id].status == Confirmed
    ensures Shippable(s, orders[id].warehouse, ItemLines(orders[id].items), asOf)
            <==> ExpiredIsCovered(s, orders[id], asOf)
  {
    var o := orders[id];
    hide HeldIn, HeldExpiredIn, UsableIn, Demand, OrdersOk, PoolIs, ItemLines;
    PoolHoldsOrder(s, orders, id);
  }

  /** So it always ships when nothing reserved for its products has expired. */
  lemma {:induction false} UnexpiredOrderShips(s: StockState, orders: seq<SalesOrder>, id: nat, asOf: Date)
    requires Projected(s)
    requires PoolIs(s, orders) && OrdersOk(orders) && id < |orders| && orders[id].status == Confirmed
    requires forall p, b :: b in ShelfAt(s.shelves, Slot(orders[id].warehouse, p))
                            && 0 < Demand(ItemLines(orders[id].items), p) && Fefo.ExpiredBy(b, asOf) ==>
                            ShelfAt(s.shelves, Slot(orders[id].warehouse, p))[b].reserved <= 0
    ensures Shippable(s, orders[id].warehouse, ItemLines(orders[id].items), asOf)
  {
    var o := orders[id];
    forall p
      ensures Min(Demand(ItemLines(o.items), p), HeldExpiredIn(s, Slot(o.warehouse, p), asOf))
           <= UsableIn(s, Slot(o.warehouse, p), asOf)
    {
      DemandNonNegative(o, Slot(o.warehouse, p));
      UsableSane(s, Slot(o.warehouse, p), asOf);
      HeldSane(s, Slot(o.warehouse, p), asOf);
      if 0 < Demand(ItemLines(o.items), p) {
        NothingExpired(ShelfAt(s.shelves, Slot(o.warehouse, p)), asOf);
      }
    }
    ConfirmedShipsExactly(s, orders, id, asOf);
  }

  lemma {:induction false} NothingExpired(shelf: Shelf, asOf: Date)
    requires forall b :: b in shelf && Fefo.ExpiredBy(b, asOf) ==> shelf[b].reserved <= 0
    ensures HeldExpired(shelf, asOf) <= 0
  {
    var expired := Fefo.ExpiringBy(HeldCaps(shelf), asOf);
    var zeros := map b | b in shelf :: 0;
    MapSum.TotalZero(zeros);
    MapSum.TotalAtMost(expired, zeros);
  }
}
