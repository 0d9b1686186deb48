/** What receipts, sales, orders and dispatches do to what a customer owes, and
    exactly where the credit limit holds (sales/service.py:397-432,
    sales/wholesale_service.py:71-84, 318-330, collections/service.py:79-106). */
module CreditLimit {
  import opened Prelude
  import opened Stock
  import opened Documents
  import opened Settlement
  import opened Bookkeeping
  import opened Collections
  import opened Catalogue
  import opened SaleRules
  import opened OrderRules

  lemma {:induction false} NothingToOthers(invoices: seq<Invoice>, customer: Id, allocations: seq<InvoiceAllocation>,
                                           i: nat)
    requires Settles(invoices, customer, allocations) && i < |invoices|
    ensures invoices[i].customer != Some(customer) ==> To(allocations, i) == 0
  {
    if invoices[i].customer != Some(customer) {
      ToNothing(allocations, i);
    }
  }

  /** Only the paying customer's debt moves, by what was allocated. */
  lemma {:induction false} SettledOwes(invoices: seq<Invoice>, customer: Id, allocations: seq<InvoiceAllocation>,
                                       other: Id, n: nat)
    requires Settles(invoices, customer, allocations) && n <= |invoices|
    ensures CustomerOwes(Settled(invoices, allocations)[..n], other)
         == CustomerOwes(invoices[..n], other) - if other == customer then AmountBelow(allocations, n) else 0
  {
    if n == 0 {
      BelowNothing(allocations);
    } else {
      hide Settles;
      var after := Settled(invoices, allocations);
      SettledOwes(invoices, customer, allocations, other, n - 1);
      assert after[..n][..n - 1] == after[..n - 1] && invoices[..n][..n - 1] == invoices[..n - 1];
      BelowStep(allocations, n - 1);
      NothingToOthers(invoices, customer, allocations, n - 1);
    }
  }

  /** A receipt lowers its customer's outstanding by the amount or to zero,
      whichever comes first, and nobody else's. */
  lemma {:induction false} ReceiptLowersOutstanding(b: Books, customer: Id, amount: int, mode: PaymentMethod,
                                                    paymentDate: Date, today: Date, other: Id)
    requires InvoicesOk(b.invoices) && 0 < amount
    ensures var after := ApplyReceipt(b, customer, amount, mode, paymentDate, today);
            var owed := CustomerOutstanding(b.invoices, other);
            CustomerOutstanding(after.invoices, other) == owed - if other == customer then Min(amount, owed) else 0
  {
    var invoices := b.invoices;
    var allocations := ReceiptAllocations(invoices, customer, amount);
    var after := Settled(invoices, allocations);
    ReceiptSettles(invoices, customer, amount);
    AllocatedIs(invoices, customer, amount);
    SettledOk(invoices, customer, allocations);
    AllBelowLength(invoices, customer, allocations);
    hide Settles, InvoicesOk, ReceiptAllocations, Settled, CustomerOutstanding, CustomerOwes, Amount, AmountBelow;
    SettledOwes(invoices, customer, allocations, other, |invoices|);
    assert after[..|invoices|] == after && invoices[..|invoices|] == invoices;
    FilterLosesNothing(invoices, other);
    FilterLosesNothing(after, other);
  }

  lemma {:induction false} AllBelowLength(invoices: seq<Invoice>, customer: Id, allocations: seq<InvoiceAllocation>)
    requires Settles(invoices, customer, allocations)
    ensures AmountBelow(allocations, |invoices|) == Amount(allocations)
  {
    BelowAll(allocations, |invoices|);
  }

  // --- Confirmed orders --------------------------------------------------------------------

  /** What a customer's CONFIRMED orders will be invoiced for. */
  function ConfirmedTotal(orders: seq<SalesOrder>, customer: Id): int {
    if orders == [] then 0
    else
      var o := orders[|orders| - 1];
      ConfirmedTotal(orders[..|orders| - 1], customer) + Pending(o, customer)
  }

  function Pending(o: SalesOrder, customer: Id): int {
    if o.status == Confirmed && o.customer == customer then o.grandTotal else 0
  }

  /** What the customer owes, or will owe once the confirmed orders have shipped. */
  function Exposure(b: Books, customer: Id): int {
    CustomerOutstanding(b.invoices, customer) + ConfirmedTotal(b.orders, customer)
  }

  lemma {:induction false} ConfirmedTotalSnoc(orders: seq<SalesOrder>, o: SalesOrder, customer: Id)
    ensures ConfirmedTotal(orders + [o], customer) == ConfirmedTotal(orders, customer) + Pending(o, customer)
  {
    assert (orders + [o])[..|orders|] == orders;
  }

  lemma {:induction false} ConfirmedTotalUpdate(orders: seq<SalesOrder>, id: nat, o: SalesOrder, customer: Id)
    requires id < |orders|
    ensures ConfirmedTotal(orders[id := o], customer)
         == ConfirmedTotal(orders, customer) - Pending(orders[id], customer) + Pending(o, customer)
  {
    var n := |orders| - 1;
    var after := orders[id := o];
    if id < n {
      ConfirmedTotalUpdate(orders[..n], id, o, customer);
      assert after[..n] == orders[..n][id := o];
    } else {
      assert after[..n] == orders[..n];
    }
  }

  lemma {:induction false} ConfirmedTotalNonNegative(orders: seq<SalesOrder>, customer: Id)
    requires OrdersOk(orders)
    ensures 0 <= ConfirmedTotal(orders, customer)
  {
    if orders != [] {
      ConfirmedTotalNonNegative(orders[..|orders| - 1], customer);
      assert OrderRowOk(orders[|orders| - 1]);
    }
  }

  /** A dispatch moves the order's total from what is pending to what is owed. */
  lemma {:induction false} DispatchKeepsExposure(b: Books, id: nat, date: Date, customer: Id)
    requires CanDispatch(b, id)
    ensures var after := ApplyOrderDispatch(b, id, date);
            && CustomerOutstanding(after.invoices, customer)
               == CustomerOutstanding(b.invoices, customer) + Pending(b.orders[id], customer)
            && Exposure(after, customer) == Exposure(b, customer)
  {
    hide CustomerOutstanding, ConfirmedTotal, ShippedItems, DispatchJournal;
    var order := b.orders[id];
    OutstandingOfSnoc(b.invoices, OrderInvoice(b, order, date), customer);
    ConfirmedTotalUpdate(b.orders, id, ShippedOrder(order, |b.invoices|), customer);
  }

  // --- Confirmed orders at some branches ---------------------------------------------------

  /** What a customer's CONFIRMED orders at these branches will be invoiced for. */
  function TotalAt(orders: seq<SalesOrder>, customer: Id, branches: set<Option<Id>>): int {
    if orders == [] then 0
    else
      var o := orders[|orders| - 1];
      TotalAt(orders[..|orders| - 1], customer, branches) + PendingAt(o, customer, branches)
  }

  function PendingAt(o: SalesOrder, customer: Id, branches: set<Option<Id>>): int {
    if o.branch in branches then Pending(o, customer) else 0
  }

  /** What the customer owes once the confirmed orders at these branches have shipped. */
  function OwedAfter(b: Books, customer: Id, branches: set<Option<Id>>): int {
    CustomerOutstanding(b.invoices, customer) + TotalAt(b.orders, customer, branches)
  }

  lemma {:induction false} TotalAtSnoc(orders: seq<SalesOrder>, o: SalesOrder, customer: Id, branches: set<Option<Id>>)
    ensures TotalAt(orders + [o], customer, branches)
         == TotalAt(orders, customer, branches) + PendingAt(o, customer, branches)
  {
    assert (orders + [o])[..|orders|] == orders;
  }

  lemma {:induction false} TotalAtUpdate(orders: seq<SalesOrder>, id: nat, o: SalesOrder, customer: Id,
                                         branches: set<Option<Id>>)
    requires id < |orders|
    ensures TotalAt(orders[id := o], customer, branches)
         == TotalAt(orders, customer, branches) - PendingAt(orders[id], customer, branches)
            + PendingAt(o, customer, branches)
  {
    var n := |orders| - 1;
    var after := orders[id := o];
    if id < n {
      TotalAtUpdate(orders[..n], id, o, customer, branches);
      assert after[..n] == orders[..n][id := o];
    } else {
      assert after[..n] == orders[..n];
    }
  }

  /** More branches owe no less, and all of them what is confirmed. */
  lemma {:induction false} TotalAtMonotone(orders: seq<SalesOrder>, customer: Id, fewer: set<Option<Id>>,
                                           more: set<Option<Id>>)
    requires OrdersOk(orders) && fewer <= more
    ensures 0 <= TotalAt(orders, customer, fewer) <= TotalAt(orders, customer, more) <= ConfirmedTotal(orders, customer)
    ensures (forall i :: 0 <= i < |orders| ==> orders[i].branch in more) ==>
              TotalAt(orders, customer, more) == ConfirmedTotal(orders, customer)
  {
    if orders != [] {
      TotalAtMonotone(orders[..|orders| - 1], customer, fewer, more);
      assert OrderRowOk(orders[|orders| - 1]);
    }
  }

  lemma {:induction false} NothingPending(orders: seq<SalesOrder>, customer: Id, branches: set<Option<Id>>)
    requires forall i :: 0 <= i < |orders| ==> PendingAt(orders[i], customer, branches) == 0
    ensures TotalAt(orders, customer, branches) == 0
  {
    if orders != [] {
      NothingPending(orders[..|orders| - 1], customer, branches);
    }
  }

  /** A dispatch at one of the branches changes nothing of what will be owed. */
  lemma {:induction false} DispatchKeepsOwed(b: Books, id: nat, date: Date, customer: Id, branches: set<Option<Id>>)
    requires CanDispatch(b, id)
    requires b.orders[id].branch in branches || b.orders[id].customer != customer
    ensures OwedAfter(ApplyOrderDispatch(b, id, date), customer, branches) == OwedAfter(b, customer, branches)
  {
    hide CustomerOutstanding, TotalAt, ConfirmedTotal, ShippedItems, DispatchJournal;
    DispatchKeepsExposure(b, id, date, customer);
    TotalAtUpdate(b.orders, id, ShippedOrder(b.orders[id], |b.invoices|), customer, branches);
  }

  // --- What a check of exposure would give ---------------------------------------------------

  /** Placing an order adds its total to the customer's exposure, unless it is a
      quotation. */
  lemma {:induction false} OrderAddsExposure(b: Books, products: map<Id, Product>, req: OrderRequest, customer: Id)
    ensures Exposure(ApplyOrder(b, products, req), customer)
         == Exposure(b, customer)
            + if !req.isQuotation && req.customer == customer then CartTotals(products, req.lines, Dealer).grand else 0
  {
    hide CustomerOutstanding, ConfirmedTotal, CartTotals, ItemsOf;
    ConfirmedTotalSnoc(b.orders, NewOrder(b, products, req), customer);
  }

  /** The check of an order leaves out exactly what is confirmed already: it is the check
      of exposure with that much added to the limit. */
  lemma {:induction false} OrderCheckIs(b: Books, products: map<Id, Product>, customers: map<Id, Customer>,
                                        req: OrderRequest)
    requires req.customer in customers && !req.isQuotation
    ensures LimitOk(b.invoices, customers, req, CartTotals(products, req.lines, Dealer).grand)
            <==> || req.creditOverride
                 || customers[req.customer].creditLimit <= 0
                 || Exposure(ApplyOrder(b, products, req), req.customer)
                    <= customers[req.customer].creditLimit + ConfirmedTotal(b.orders, req.customer)
  {
    OrderAddsExposure(b, products, req, req.customer);
    hide CustomerOutstanding, ConfirmedTotal, CartTotals;
  }

  /** For a customer with nothing confirmed yet, the check of one order is the check of
      exposure. */
  lemma {:induction false} FirstOrderCheckSuffices(b: Books, products: map<Id, Product>, customers: map<Id, Customer>,
                                                   req: OrderRequest)
    requires req.customer in customers && 0 < customers[req.customer].creditLimit && !req.creditOverride
    requires !req.isQuotation && ConfirmedTotal(b.orders, req.customer) == 0
    ensures LimitOk(b.invoices, customers, req, CartTotals(products, req.lines, Dealer).grand)
            <==> Exposure(ApplyOrder(b, products, req), req.customer) <= customers[req.customer].creditLimit
  {
    OrderCheckIs(b, products, customers, req);
  }
}
