/** backend/app/modules/sales/wholesale_service.py: dealer orders, reservations and
    dispatch, statement by statement. */
module Wholesale {
  import opened Prelude
  import Fefo
  import opened Stock
  import opened StockLines
  import opened Fulfilment
  import opened Inventory
  import opened Documents
  import opened Persistence
  import opened Numbering
  import opened Registers
  import opened Accounting
  import opened Bookkeeping
  import opened JournalEffects
  import opened Catalogue
  import opened OrderRules

  datatype WholesaleError =
    | EmptyOrder
    | UnknownCustomer
    | UnknownProduct
    | UnknownBranch
    | NumberTaken
    | BadOrderLine
    | CreditLimitExceeded
    | CannotReserve
    | UnknownOrder
    | NotDispatchable
    | CannotRelease
    | CannotIssue

  class WholesaleService {
    const db: Database
    const inventory: InventoryService
    const numbering: NumberingService
    const accounting: AccountingService

    constructor (db: Database, repo: InventoryRepository)
      ensures this.db == db && inventory.repo == repo && Wired()
    {
      this.db := db;
      inventory := new InventoryService(repo);
      numbering := new NumberingService(db);
      accounting := new AccountingService(db);
    }

    ghost predicate Wired() {
      numbering.db == db && accounting.db == db
    }

    method EnforceCreditLimit(customers: map<Id, Customer>, req: OrderRequest, orderTotal: int) returns (allowed: bool)
      requires req.customer in customers
      ensures allowed <==> LimitOk(db.invoices, customers, req, orderTotal)
    {
      var limit := customers[req.customer].creditLimit;
      if req.creditOverride || limit <= 0 {
        return true;
      }
      var outstanding := CustomerOutstanding(db.invoices, req.customer);
      allowed := outstanding + orderTotal <= limit;
    }

    /** Price the lines into order items. */
    method PriceItems(products: map<Id, Product>, req: OrderRequest)
      returns (r: Result<(Totals, seq<OrderItem>), WholesaleError>)
      requires Known(products, req.lines)
      ensures r.Ok? <==> CartOk(products, req.lines)
      ensures r.Ok? ==>
                r.value == (CartTotals(products, req.lines, Dealer), ItemsOf(products, req.lines, !req.isQuotation))
    {
      var t, items := Totals(0, 0, 0), [];
      assert req.lines[..0] == [];
      assert ItemsOf(products, [], !req.isQuotation) == [];
      hide ItemsOf, ItemOf, PriceOf;
      for i := 0 to |req.lines|
        invariant t == CartTotals(products, req.lines[..i], Dealer) && CartOk(products, req.lines[..i])
        invariant items == ItemsOf(products, req.lines[..i], !req.isQuotation)
      {
        var price := PriceOf(products, req.lines[i], Dealer);
        CartNext(products, req.lines, i, Dealer);
        if price.None? {
          return Err(BadOrderLine);
        }
        ItemsNext(products, req.lines, i, !req.isQuotation);
        items := items + [ItemOf(products, req.lines[i], !req.isQuotation)];
        t := AddLine(t, price);
      }
      assert req.lines[..|req.lines|] == req.lines;
      r := Ok((t, items));
    }

    /** Reserve every line; a line that cannot be held stops the order. */
    method ReserveCart(req: OrderRequest) returns (ok: bool, ghost plans: seq<seq<Fefo.Allocation>>)
      requires inventory.repo.Valid() && AllPositive(LinesOf(req.lines))
      modifies inventory.repo
      ensures inventory.repo.Valid()
      ensures ok <==> Enough(old(inventory.repo.View()), req.warehouse, LinesOf(req.lines), req.asOf)
      ensures ok ==>
                && ReserveLinesOk(old(inventory.repo.View()), req.warehouse, LinesOf(req.lines), req.asOf, plans)
                && inventory.repo.View()
                   == ReserveLines(old(inventory.repo.View()), req.warehouse, LinesOf(req.lines), plans)
    {
      ghost var s, w, sl := inventory.repo.View(), req.warehouse, LinesOf(req.lines);
      plans := [];
      ReservingNone(s, w, sl, req.asOf);
      for i := 0 to |req.lines|
        invariant inventory.repo.Valid()
        invariant Reserving(s, inventory.repo.View(), w, sl, i, req.asOf, plans)
      {
        ghost var before := inventory.repo.View();
        var held := inventory.Reserve(Slot(req.warehouse, req.lines[i].product), req.lines[i].quantity, req.asOf);
        if held.Err? {
          UnreservedMeansShort(s, before, w, sl, i, req.asOf, plans);
          return false, plans;
        }
        ReservingNext(s, before, w, sl, i, req.asOf, plans, held.value);
        plans := plans + [held.value];
      }
      ReservedMeansEnough(s, inventory.repo.View(), w, sl, req.asOf, plans);
      ok := true;
    }

    /** Create a quotation or a confirmed order. It goes through exactly when it is
        OrderOk; a refused one leaves no trace. */
    method CreateOrder(products: map<Id, Product>, customers: map<Id, Customer>, req: OrderRequest)
      returns (r: Result<nat, WholesaleError>, ghost plans: seq<seq<Fefo.Allocation>>)
      requires Wired() && inventory.repo.Valid()
      modifies db, inventory.repo
      ensures inventory.repo.Valid()
      ensures var b, s := old(db.View()), old(inventory.repo.View());
              if OrderOk(b, s, products, customers, req) then
                && r == Ok(|b.orders|)
                && db.View() == ApplyOrder(b, products, req)
                && IsOrderOf(db.orders[|b.orders|], products, req)
                && (if req.isQuotation then inventory.repo.View() == s
                    else ReserveLinesOk(s, req.warehouse, LinesOf(req.lines), req.asOf, plans)
                         && inventory.repo.View() == ReserveLines(s, req.warehouse, LinesOf(req.lines), plans))
              else r.Err? && db.View() == b && inventory.repo.View() == s
    {
      plans := [];
      if req.lines == [] {
        return Err(EmptyOrder), plans;
      }
      if req.customer !in customers {
        return Err(UnknownCustomer), plans;
      }
      if exists i :: 0 <= i < |req.lines| && req.lines[i].product !in products {
        return Err(UnknownProduct), plans;
      }
      var b, s := db.View(), inventory.repo.View();
      var total := InsertOrder(products, req);
      if total.Err? {
        db.Rollback(b);
        return Err(total.error), plans;
      }
      if !req.isQuotation {
        var held;
        held, plans := Confirm(products, customers, req, total.value);
        if held.Err? {
          db.Rollback(b);
          inventory.repo.Rollback(s);
          return Err(held.error), plans;
        }
      }
      OrderIsCharged(b, products, req);
      r := Ok(|b.orders|);
    }

    /** A document's number, free in its table and at an existing branch
        (uq_sales_order_no, uq_sales_invoice_no). */
    method TakeNumber(scope: Scope) returns (r: Result<DocumentNumber, WholesaleError>)
      requires Wired()
      modifies db`numbers
      ensures r.Ok? <==> CanIssue(old(db.View()), scope)
      ensures r.Ok? ==> r.value == NextOf(old(db.numbers), db.codes, scope)
                        && db.numbers == Advanced(old(db.numbers), db.codes, scope)
      ensures r.Err? ==> r.error == WholesaleError.UnknownBranch || r.error == NumberTaken
    {
      hide Printed, Advanced;
      var number := numbering.NextNumber(scope);
      if number.Err? || !KnownBranch(scope.branch, db.codes) {
        return Err(WholesaleError.UnknownBranch);
      }
      if !Free(Rows(db.View(), scope.document), number.value) {
        return Err(NumberTaken);
      }
      r := Ok(number.value);
    }

    /** Take the number, price the lines and insert the order with its items. */
    method InsertOrder(products: map<Id, Product>, req: OrderRequest) returns (total: Result<int, WholesaleError>)
      requires Wired() && Known(products, req.lines)
      modifies db`numbers, db`orders
      ensures total.Ok? <==> CanIssue(old(db.View()), ScopeOf(req)) && CartOk(products, req.lines)
      ensures total.Ok? ==>
                && db.View() == ApplyOrder(old(db.View()), products, req)
                && total.value == CartTotals(products, req.lines, Dealer).grand
    {
      hide CanIssue, NextOf, Advanced;
      var number := TakeNumber(ScopeOf(req));
      if number.Err? {
        return Err(number.error);
      }
      var priced := PriceItems(products, req);
      if priced.Err? {
        return Err(priced.error);
      }
      var (t, items) := priced.value;
      var order := SalesOrder(req.branch, number.value, req.warehouse, req.customer, req.date,
                              if req.isQuotation then Quotation else Confirmed, items,
                              t.subtotal, t.tax, t.grand, None);
      db.orders := db.orders + [order];
      total := Ok(t.grand);
    }

    /** Credit check, then the reservations. */
    method Confirm(products: map<Id, Product>, customers: map<Id, Customer>, req: OrderRequest, total: int)
      returns (r: Result<(), WholesaleError>, ghost plans: seq<seq<Fefo.Allocation>>)
      requires inventory.repo.Valid() && CartOk(products, req.lines) && req.customer in customers
      modifies inventory.repo
      ensures inventory.repo.Valid()
      ensures r.Ok? <==> LimitOk(db.invoices, customers, req, total)
                         && Enough(old(inventory.repo.View()), req.warehouse, LinesOf(req.lines), req.asOf)
      ensures r.Ok? ==>
                && ReserveLinesOk(old(inventory.repo.View()), req.warehouse, LinesOf(req.lines), req.asOf, plans)
                && inventory.repo.View()
                   == ReserveLines(old(inventory.repo.View()), req.warehouse, LinesOf(req.lines), plans)
    {
      plans := [];
      var allowed := EnforceCreditLimit(customers, req, total);
      if !allowed {
        return Err(CreditLimitExceeded), plans;
      }
      CartPositive(products, req.lines);
      var ok;
      ok, plans := ReserveCart(req);
      r := if ok then Ok(()) else Err(CannotReserve);
    }

    /** Release one item's reservation, then deduct it. The release fails exactly
        when the pool holds less. */
    method ShipItem(slot: Slot, q: int, asOf: Date) returns (r: Result<(), WholesaleError>, ghost plan: DispatchPlan)
      requires inventory.repo.Valid() && 0 < q
      modifies inventory.repo
      ensures AllCovered(old(inventory.repo.View())) ==>
                (r.Ok? <==> Ships(old(inventory.repo.View()), slot, q, asOf))
      ensures q <= HeldIn(old(inventory.repo.View()), slot) ==> r != Err(CannotRelease)
      ensures var s := old(inventory.repo.View());
              q <= HeldIn(s, slot) && q <= UsableIn(s, slot, asOf) ==> r.Ok?
      ensures r.Ok? ==>
                && inventory.repo.Valid()
                && ReleaseOk(old(inventory.repo.View()), slot, q, plan.release)
                && IssueOk(ApplyRelease(old(inventory.repo.View()), slot, plan.release), slot, q, asOf, plan.issue)
                && inventory.repo.View() == DispatchOne(old(inventory.repo.View()), slot, plan)
    {
      ghost var s := inventory.repo.View();
      var released; ghost var release;
      released, release := inventory.ReleaseReservation(slot, q);
      if released.Err? {
        return Err(CannotRelease), DispatchPlan(release, []);
      }
      if AllCovered(s) {
        ReleasedEnough(s, slot, q, asOf, release);
      }
      ReleaseOneHolds(s, slot, q, asOf, release, slot);
      var issued := inventory.IssueFefo(slot, q, WholesaleSale, asOf);
      if issued.Err? {
        return Err(CannotIssue), DispatchPlan(release, []);
      }
      plan := DispatchPlan(release, issued.value);
      r := Ok(());
    }

    /** Ship the next item of a dispatch that has got this far. */
    method ShipNext(slot: Slot, q: int, asOf: Date, ghost s: StockState, ghost lines: seq<Line>, ghost i: nat,
                    ghost plans: seq<DispatchPlan>)
      returns (r: Result<(), WholesaleError>, ghost plan: DispatchPlan)
      requires inventory.repo.Valid() && Projected(s) && AllPositive(lines)
      requires i < |lines| && lines[i] == Line(slot.product, q)
      requires Dispatching(s, inventory.repo.View(), slot.warehouse, lines, i, asOf, plans)
      modifies inventory.repo
      ensures r.Ok? ==>
                && inventory.repo.Valid()
                && Dispatching(s, inventory.repo.View(), slot.warehouse, lines, i + 1, asOf, plans + [plan])
      ensures r.Err? ==> CannotShip(s, slot.warehouse, lines, asOf, r.error)
    {
      ghost var before := inventory.repo.View();
      Suffices(s, before, slot.warehouse, lines, i, asOf, plans);
      StillCovered(s, before, slot.warehouse, lines, i, asOf, plans);
      r, plan := ShipItem(slot, q, asOf);
      if r.Err? {
        Stuck(s, before, slot.warehouse, lines, i, asOf, plans);
      } else {
        DispatchingNext(s, before, slot.warehouse, lines, i, asOf, plans, plan);
      }
    }

    /** Ship every item of an order. */
    method ShipItems(order: SalesOrder, asOf: Date)
      returns (r: Result<seq<OrderItem>, WholesaleError>, ghost plans: seq<DispatchPlan>)
      requires inventory.repo.Valid() && AllPositive(ItemLines(order.items))
      modifies inventory.repo
      ensures r.Err? ==> CannotShip(old(inventory.repo.View()), order.warehouse, ItemLines(order.items), asOf, r.error)
      ensures r.Ok? && AllCovered(old(inventory.repo.View())) ==>
                Shippable(old(inventory.repo.View()), order.warehouse, ItemLines(order.items), asOf)
      ensures r.Ok? ==>
                && inventory.repo.Valid() && r.value == ShippedItems(order.items)
                && StockLines.DispatchLinesOk(old(inventory.repo.View()), order.warehouse, ItemLines(order.items), asOf,
                                              plans)
                && inventory.repo.View()
                   == StockLines.DispatchLines(old(inventory.repo.View()), order.warehouse, ItemLines(order.items),
                                               plans)
    {
      ghost var s, w, sl := inventory.repo.View(), order.warehouse, ItemLines(order.items);
      var items := [];
      plans := [];
      DispatchingNone(s, w, sl, asOf);
      ShippedNone();
      assert order.items[..0] == [];
      hide *;
      for i := 0 to |order.items|
        invariant inventory.repo.Valid()
        invariant Dispatching(s, inventory.repo.View(), w, sl, i, asOf, plans)
        invariant items == ShippedItems(order.items[..i])
      {
        var item := order.items[i];
        var shipped; ghost var plan;
        shipped, plan := ShipNext(Slot(order.warehouse, item.product), item.quantity, asOf, s, sl, i, plans);
        if shipped.Err? {
          return Err(shipped.error), plans;
        }
        plans := plans + [plan];
        ShippedSnoc(order.items, i);
        items := items + [item.(dispatchedQuantity := item.quantity)];
      }
      assert order.items[..|order.items|] == order.items;
      Finished(s, inventory.repo.View(), w, sl, asOf, plans);
      r := Ok(items);
    }

    /** Ship a confirmed order and invoice it on credit. Only a confirmed order
        ships, and only while its invoice's number is free; then, while reservations
        are covered, exactly when it is Shippable, and covered or not whenever the
        pool holds it and unreserved stock covers it. While the pool holds it no
        release fails. A refused dispatch leaves no trace. */
    method DispatchAndInvoice(id: nat, invoiceDate: Date, asOf: Date)
      returns (r: Result<nat, WholesaleError>, ghost plans: seq<DispatchPlan>)
      requires Wired() && inventory.repo.Valid() && OrdersOk(db.orders)
      modifies db, inventory.repo
      ensures inventory.repo.Valid() && OrdersOk(db.orders)
      ensures !CanDispatch(old(db.View()), id) ==>
                r == Err(if id < |old(db.orders)| then NotDispatchable else UnknownOrder)
      ensures r.Ok? ==> CanDispatch(old(db.View()), id) && CanIssue(old(db.View()), ShipScope(old(db.orders)[id]))
      ensures CanDispatch(old(db.View()), id) && AllCovered(old(inventory.repo.View())) ==>
                var order := old(db.orders)[id];
                (r.Ok? <==> && CanIssue(old(db.View()), ShipScope(order))
                            && Shippable(old(inventory.repo.View()), order.warehouse, ItemLines(order.items), asOf))
      ensures CanDispatch(old(db.View()), id) ==>
                var order, s := old(db.orders)[id], old(inventory.repo.View());
                PoolHolds(s, order.warehouse, ItemLines(order.items)) ==>
                  && r != Err(CannotRelease)
                  && (Enough(s, order.warehouse, ItemLines(order.items), asOf) ==>
                        (r.Ok? <==> CanIssue(old(db.View()), ShipScope(order))))
      ensures r.Ok? ==>
                && r.value == |old(db.invoices)|
                && db.View() == ApplyOrderDispatch(old(db.View()), id, invoiceDate)
                && BooksShipped(old(db.View()), db.View(), id, invoiceDate)
                && StockShipped(old(inventory.repo.View()), inventory.repo.View(), old(db.orders)[id], asOf, plans)
      ensures r.Err? ==> db.View() == old(db.View()) && inventory.repo.View() == old(inventory.repo.View())
    {
      plans := [];
      if |db.orders| <= id {
        return Err(UnknownOrder), plans;
      }
      var order := db.orders[id];
      if order.status != Confirmed {
        return Err(NotDispatchable), plans;
      }
      var b, s := db.View(), inventory.repo.View();
      assert OrderRowOk(order);
      hide CanIssue, PoolHolds, Enough, Shippable, AllCovered, OrderRowOk, OrdersOk, ApplyOrderDispatch, OrderInvoice,
           BooksShipped, StockShipped;
      var invoice := InsertInvoice(order, invoiceDate);
      if invoice.Err? {
        db.Rollback(b);
        return Err(invoice.error), plans;
      }
      var shipped;
      shipped, plans := ShipItems(order, asOf);
      if shipped.Err? {
        db.Rollback(b);
        inventory.repo.Rollback(s);
        return Err(shipped.error), plans;
      }
      ShippedStock(s, order, asOf, plans);
      CompleteDispatch(id, shipped.value, invoiceDate, b);
      DispatchKeepsOrders(b, id, invoiceDate);
      r := Ok(invoice.value);
    }

    /** Take the invoice's number and insert it with the order's totals. */
    method InsertInvoice(order: SalesOrder, date: Date) returns (r: Result<nat, WholesaleError>)
      requires Wired()
      modifies db`numbers, db`invoices
      ensures r.Ok? <==> CanIssue(old(db.View()), ShipScope(order))
      ensures r.Err? ==> r.error == WholesaleError.UnknownBranch || r.error == NumberTaken
      ensures r.Ok? ==> r.value == |old(db.invoices)| && db.View() == WithInvoice(old(db.View()), order, date)
    {
      hide CanIssue, NextOf, Advanced;
      var number := TakeNumber(ShipScope(order));
      if number.Err? {
        return Err(number.error);
      }
      r := Ok(|db.invoices|);
      db.invoices := db.invoices + [Invoice(order.branch, number.value, Some(order.customer), date, WholesaleChannel,
                                            order.subtotal, order.taxTotal, order.grandTotal, 0, Credit)];
    }

    /** Link the order to its invoice and post the journal. */
    method CompleteDispatch(id: nat, items: seq<OrderItem>, date: Date, ghost b: Books)
      requires Wired() && id < |b.orders| && OrderRowOk(b.orders[id]) && items == ShippedItems(b.orders[id].items)
      requires db.View() == WithInvoice(b, b.orders[id], date)
      modifies db`orders, db`journal
      ensures db.View() == ApplyOrderDispatch(b, id, date)
      ensures BooksShipped(b, db.View(), id, date)
    {
      hide NextOf, Advanced;
      var order, invoice := db.orders[id], |db.invoices| - 1;
      OrderInvoiceOk(b, order, date);
      db.orders := db.orders[id := order.(status := Invoiced, items := items, invoice := Some(invoice))];
      PostDispatchJournal(db.invoices[invoice]);
    }

    /** Wholesale ships on credit: debit the receivable, credit sales and tax. */
    method PostDispatchJournal(inv: Invoice)
      requires Wired() && (0 < inv.grandTotal ==> Payable(inv, []))
      modifies db`journal
      ensures db.journal == old(db.journal) + DispatchJournal(inv)
      ensures PostsSale(old(db.journal), db.journal, inv, [])
    {
      DispatchPosts(db.journal, inv);
      hide PostsSale;
      if 0 < inv.grandTotal {
        var lines := [JournalLine(AR, inv.grandTotal, 0), JournalLine(SALES, 0, inv.subtotal)];
        if 0 < inv.taxTotal {
          lines := lines + [JournalLine(GST_OUTPUT, 0, inv.taxTotal)];
        }
        assert lines == CreditSaleLines(inv);
        DispatchJournalBalances(inv);
        var posted := accounting.Post(inv.date, lines);
      }
    }
  }

  /** What a dispatch leaves in the books: its invoice and its journal entry. */
  ghost predicate BooksShipped(b: Books, after: Books, id: nat, date: Date) {
    && id < |b.orders| && |after.invoices| == |b.invoices| + 1
    && IsShipmentOf(after.invoices[|b.invoices|], b.orders[id], date)
    && PostsSale(b.journal, after.journal, after.invoices[|b.invoices|], [])
  }

  /** What it takes from stock: the order's items, out of the pool and out of the
      warehouse. */
  ghost predicate StockShipped(s: StockState, t: StockState, order: SalesOrder, asOf: Date, plans: seq<DispatchPlan>) {
    var w, lines := order.warehouse, ItemLines(order.items);
    && StockLines.DispatchLinesOk(s, w, lines, asOf, plans) && t == StockLines.DispatchLines(s, w, lines, plans)
    && MovesOut(s.ledger, t.ledger, w, WholesaleSale)
    && LinesLeft(s, t, w, lines)
    && forall slot :: StockLines.HeldIn(t, slot)
                      == StockLines.HeldIn(s, slot)
                         - if slot.warehouse == w then Demand(lines, slot.product) else 0
  }

  lemma {:induction false} ShippedStock(s: StockState, order: SalesOrder, asOf: Date, plans: seq<DispatchPlan>)
    requires Projected(s) && StockLines.DispatchLinesOk(s, order.warehouse, ItemLines(order.items), asOf, plans)
    ensures StockShipped(s, StockLines.DispatchLines(s, order.warehouse, ItemLines(order.items), plans), order, asOf,
                         plans)
  {
    DispatchLinesMoveOut(s, order.warehouse, ItemLines(order.items), asOf, plans);
    DispatchTakesLines(s, order.warehouse, ItemLines(order.items), asOf, plans);
  }

  /** A dispatch that fails on its lines was not shippable, and never fails in a
      release while the pool holds it, nor at all while stock covers it as well. */
  ghost predicate CannotShip(s: StockState, w: Id, lines: seq<Line>, asOf: Date, error: WholesaleError) {
    && (AllCovered(s) ==> !Shippable(s, w, lines, asOf))
    && (PoolHolds(s, w, lines) ==> error != CannotRelease && !Enough(s, w, lines, asOf))
  }

  /** The books with the order's invoice inserted. */
  function WithInvoice(b: Books, order: SalesOrder, date: Date): Books {
    b.(invoices := b.invoices + [OrderInvoice(b, order, date)],
       numbers := Advanced(b.numbers, b.codes, ShipScope(order)))
  }

  lemma {:induction false} StillCovered(s: StockState, t: StockState, w: Id, lines: seq<Line>, i: nat, asOf: Date,
                                        plans: seq<DispatchPlan>)
    requires Projected(s) && AllPositive(lines) && i < |lines| && Dispatching(s, t, w, lines, i, asOf, plans)
    ensures AllCovered(s) ==> AllCovered(t)
  {
    if AllCovered(s) {
      DispatchLeft(s, t, w, lines, i, asOf, plans, lines[i].product);
    }
  }

  lemma {:induction false} Suffices(s: StockState, t: StockState, w: Id, lines: seq<Line>, i: nat, asOf: Date,
                                    plans: seq<DispatchPlan>)
    requires Projected(s) && AllPositive(lines) && i < |lines| && Dispatching(s, t, w, lines, i, asOf, plans)
    ensures PoolHolds(s, w, lines) ==> lines[i].quantity <= HeldIn(t, Slot(w, lines[i].product))
    ensures Enough(s, w, lines, asOf) ==> lines[i].quantity <= UsableIn(t, Slot(w, lines[i].product), asOf)
  {
    if PoolHolds(s, w, lines) {
      NeverOverReleases(s, t, w, lines, i, asOf, plans);
    }
    if Enough(s, w, lines, asOf) {
      EnoughShips(s, t, w, lines, i, asOf, plans);
    }
  }

  lemma {:induction false} Stuck(s: StockState, t: StockState, w: Id, lines: seq<Line>, i: nat, asOf: Date,
                                 plans: seq<DispatchPlan>)
    requires Projected(s) && AllPositive(lines) && i < |lines| && Dispatching(s, t, w, lines, i, asOf, plans)
    requires AllCovered(s) ==> !Ships(t, Slot(w, lines[i].product), lines[i].quantity, asOf)
    ensures AllCovered(s) ==> !Shippable(s, w, lines, asOf)
  {
    if AllCovered(s) {
      StuckMeansUnshippable(s, t, w, lines, i, asOf, plans);
    }
  }

  lemma {:induction false} Finished(s: StockState, t: StockState, w: Id, lines: seq<Line>, asOf: Date,
                                    plans: seq<DispatchPlan>)
    requires Projected(s) && AllPositive(lines) && Dispatching(s, t, w, lines, |lines|, asOf, plans)
    ensures AllCovered(s) ==> Shippable(s, w, lines, asOf)
    ensures StockLines.DispatchLinesOk(s, w, lines, asOf, plans) && t == StockLines.DispatchLines(s, w, lines, plans)
  {
    assert lines[..|lines|] == lines;
    if AllCovered(s) {
      ShippedMeansShippable(s, t, w, lines, asOf, plans);
    }
  }
}
