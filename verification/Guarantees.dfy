/** What holds after any run of committed calls, starting from empty tables. */
module Guarantees {
  import opened Prelude
  import Fefo
  import opened Stock
  import opened StockLines
  import opened Fulfilment
  import opened Documents
  import opened Numbering
  import opened Registers
  import opened Repairs
  import opened Bookkeeping
  import opened Catalogue
  import opened SaleRules
  import opened OrderRules
  import opened CreditLimit
  import opened Runs
  import Accounting
  import Statement

  // --- Runs -------------------------------------------------------------------------------------

  lemma {:induction false} RunKeeps(w: World, steps: seq<Step>)
    requires Inv(w) && RunOk(w, steps)
    ensures Inv(After(w, steps))
    decreases |steps|
  {
    if steps != [] {
      hide Inv, Enabled, Apply;
      StepKeeps(w, steps[0]);
      RunKeeps(Apply(w, steps[0]), steps[1..]);
    }
  }

  /** One run after another. */
  lemma {:induction false} RunConcat(w: World, steps: seq<Step>, more: seq<Step>)
    requires RunOk(w, steps) && RunOk(After(w, steps), more)
    ensures RunOk(w, steps + more) && After(w, steps + more) == After(After(w, steps), more)
    decreases |steps|
  {
    hide Enabled, Apply;
    if steps == [] {
      assert [] + more == more;
    } else {
      RunConcat(Apply(w, steps[0]), steps[1..], more);
      assert (steps + more)[1..] == steps[1..] + more;
    }
  }

  lemma {:induction false} OneStep(w: World, step: Step)
    requires Enabled(w, step)
    ensures RunOk(w, [step]) && After(w, [step]) == Apply(w, step)
  {
    assert [step][1..] == [];
  }

  lemma {:induction false} RunSnoc(w: World, steps: seq<Step>, step: Step)
    requires RunOk(w, steps) && Enabled(After(w, steps), step)
    ensures RunOk(w, steps + [step]) && After(w, steps + [step]) == Apply(After(w, steps), step)
  {
    hide Enabled, Apply, RunOk, After;
    OneStep(After(w, steps), step);
    RunConcat(w, steps, [step]);
  }

  /** No transfer of the run takes reserved stock. */
  ghost predicate SafeRun(w: World, steps: seq<Step>)
    requires RunOk(w, steps)
    decreases |steps|
  {
    steps == [] || (TransferSafe(w, steps[0]) && SafeRun(Apply(w, steps[0]), steps[1..]))
  }

  lemma {:induction false} SafeRunCovers(w: World, steps: seq<Step>)
    requires Inv(w) && AllCovered(w.stock) && RunOk(w, steps) && SafeRun(w, steps)
    ensures AllCovered(After(w, steps).stock)
    decreases |steps|
  {
    if steps != [] {
      hide Inv, Enabled, Apply, TransferSafe, AllCovered;
      StepKeeps(w, steps[0]);
      StepCovers(w, steps[0]);
      SafeRunCovers(Apply(w, steps[0]), steps[1..]);
    }
  }

  // --- Stock ------------------------------------------------------------------------------------

  /** In every reachable world, transfers included, each row is the sum of its own
      movements and never negative, and the reservations of a product are exactly
      the quantities of the confirmed orders; while no transfer took reserved stock,
      no row promises more than it holds. */
  lemma {:induction false} StockAlwaysAdds(steps: seq<Step>, slot: Slot, b: Fefo.BatchRef)
    requires RunOk(NOTHING_YET, steps)
    ensures var w := After(NOTHING_YET, steps);
            var shelf := ShelfAt(w.stock.shelves, slot);
            && 0 <= OnHandAt(shelf, b) == LedgerSum(w.stock.ledger, slot, b)
            && 0 <= ReservedAt(shelf, b)
            && (SafeRun(NOTHING_YET, steps) ==> ReservedAt(shelf, b) <= OnHandAt(shelf, b))
            && HeldIn(w.stock, slot) == ConfirmedDemand(w.books.orders, slot)
  {
    StartsOk();
    RunKeeps(NOTHING_YET, steps);
    var w := After(NOTHING_YET, steps);
    var shelf := ShelfAt(w.stock.shelves, slot);
    assert NonNegative(shelf);
    if SafeRun(NOTHING_YET, steps) {
      SafeRunCovers(NOTHING_YET, steps);
      assert Covered(shelf);
    }
  }

  lemma {:induction false} LinesExtend(s: StockState, w: Id, lines: seq<Line>, kind: MovementType,
                                       plans: seq<seq<Fefo.Allocation>>)
    requires |plans| == |lines|
    ensures s.ledger <= IssueLines(s, w, lines, kind, plans).ledger
  {
    if lines != [] {
      LinesExtend(s, w, lines[..|lines| - 1], kind, plans[..|lines| - 1]);
    }
  }

  lemma {:induction false} ShipsExtend(s: StockState, w: Id, lines: seq<Line>, ships: seq<DispatchPlan>)
    requires |ships| == |lines|
    ensures s.ledger <= DispatchLines(s, w, lines, ships).ledger
  {
    if lines != [] {
      ShipsExtend(s, w, lines[..|lines| - 1], ships[..|lines| - 1]);
    }
  }

  lemma {:induction false} StepExtends(w: World, step: Step)
    requires Enabled(w, step)
    ensures w.stock.ledger <= Apply(w, step).stock.ledger
  {
    hide OrderEnabled, SaleEnabled, IssueLines, ReserveLines, DispatchLines, DispatchLinesOk, CanIssue, Outgoing,
         ApplyOrder, ApplyRetailSale, ApplyOrderDispatch;
    match step
    case PlaceOrder(products, customers, req, plans) =>
      OrderIssues(w, products, customers, req, plans);
    case Dispatch(id, date, asOf, ships) =>
      PlansCount(w.stock, w.books.orders[id].warehouse, ItemLines(w.books.orders[id].items), asOf, ships);
      ShipsExtend(w.stock, w.books.orders[id].warehouse, ItemLines(w.books.orders[id].items), ships);
    case Sell(products, customers, req, plans) =>
      if !IsRetry(w, step) {
        SaleCounts(w, products, customers, req, plans);
        LinesExtend(w.stock, req.warehouse, LinesOf(req.lines), RetailSale, plans);
      }
    case _ =>
  }

  /** The ledger only grows. */
  lemma {:induction false} LedgerOnlyGrows(w: World, steps: seq<Step>)
    requires RunOk(w, steps)
    ensures w.stock.ledger <= After(w, steps).stock.ledger
    decreases |steps|
  {
    if steps != [] {
      hide Enabled, Apply;
      StepExtends(w, steps[0]);
      LedgerOnlyGrows(Apply(w, steps[0]), steps[1..]);
    }
  }

  /** Every row has the sign of its type: what comes in is positive, what goes out is
      negative, corrections are either. */
  ghost predicate SignsOk(ledger: seq<Movement>) {
    forall k :: 0 <= k < |ledger| ==> SignOk(ledger[k].kind, ledger[k].quantity)
  }

  lemma {:induction false} OutSigned(before: seq<Movement>, after: seq<Movement>, w: Id, kind: MovementType)
    requires SignsOk(before) && MovesOut(before, after, w, kind) && SignOk(kind, -1)
    ensures SignsOk(after)
  {
    forall k | 0 <= k < |after| ensures SignOk(after[k].kind, after[k].quantity) {
      if k < |before| {
        assert after[k] == before[k];
      }
    }
  }

  lemma {:induction false} PostSigned(s: StockState, slot: Slot, b: Fefo.BatchRef, kind: MovementType, delta: int)
    requires SignsOk(s.ledger) && SignOk(kind, delta)
    ensures SignsOk(ApplyPost(s, slot, b, kind, delta).ledger)
  {
  }

  lemma {:induction false} OrderMovesNothing(w: World, products: map<Id, Product>, req: OrderRequest,
                                             plans: seq<seq<Fefo.Allocation>>)
    requires !req.isQuotation ==> |plans| == |req.lines|
    ensures AfterOrder(w, products, req, plans).stock.ledger == w.stock.ledger
  {
    if !req.isQuotation {
      HeldMovesNothing(w.stock, req.warehouse, LinesOf(req.lines), plans);
    }
  }

  lemma {:induction false} HeldMovesNothing(s: StockState, w: Id, lines: seq<Line>, plans: seq<seq<Fefo.Allocation>>)
    requires |plans| == |lines|
    ensures ReserveLines(s, w, lines, plans).ledger == s.ledger
  {
    if lines != [] {
      HeldMovesNothing(s, w, lines[..|lines| - 1], plans[..|lines| - 1]);
    }
  }

  lemma {:induction false} StepSigned(w: World, step: Step)
    requires Inv(w) && Enabled(w, step) && SignsOk(w.stock.ledger)
    ensures SignsOk(Apply(w, step).stock.ledger)
  {
    hide OrderEnabled, SaleEnabled, IssueLines, ReserveLines, DispatchLines, DispatchLinesOk, CanIssue, Outgoing,
         ApplyOrder, ApplyRetailSale, ApplyOrderDispatch, SignsOk, ApplyPost, ApplyIssue, MovesOut, AfterOrder,
         Inv, IssueOk;
    var ledger := w.stock.ledger;
    match step
    case Receive(slot, batch, kind, q) => PostSigned(w.stock, slot, batch, kind, q);
    case AdjustUp(slot, kind, q) => PostSigned(w.stock, slot, None, kind, q);
    case AdjustDown(slot, kind, q, asOf, plan) =>
      IssueMovesOut(w.stock, slot, kind, q, asOf, plan);
      OutSigned(ledger, Apply(w, step).stock.ledger, slot.warehouse, kind);
    case Transfer(source, target, batch, q) =>
      PostSigned(w.stock, source, batch, TransferOut, -q);
      PostSigned(ApplyPost(w.stock, source, batch, TransferOut, -q), target, batch, TransferIn, q);
    case ConsumePart(products, job, product, q, asOf, plan) =>
      var slot := JobSlot(w.books, job, product);
      IssueMovesOut(w.stock, slot, RepairConsumption, q, asOf, plan);
      OutSigned(ledger, Apply(w, step).stock.ledger, slot.warehouse, RepairConsumption);
    case ReturnPart(part) =>
      var p := w.books.parts[part];
      PartPositive(w, part);
      PostSigned(w.stock, JobSlot(w.books, p.job, p.product), None, RepairReturn, p.quantity);
    case PlaceOrder(products, customers, req, plans) =>
      OrderIssues(w, products, customers, req, plans);
      OrderMovesNothing(w, products, req, plans);
    case Dispatch(id, date, asOf, ships) =>
      var order := w.books.orders[id];
      PlansCount(w.stock, order.warehouse, ItemLines(order.items), asOf, ships);
      DispatchLinesMoveOut(w.stock, order.warehouse, ItemLines(order.items), asOf, ships);
      OutSigned(ledger, Apply(w, step).stock.ledger, order.warehouse, WholesaleSale);
    case Sell(products, customers, req, plans) =>
      if !IsRetry(w, step) {
        SaleCounts(w, products, customers, req, plans);
        SaleMovesOut(w, products, customers, req, plans);
        OutSigned(ledger, Apply(w, step).stock.ledger, req.warehouse, RetailSale);
      }
    case _ =>
  }

  lemma {:induction false} PartPositive(w: World, part: nat)
    requires Inv(w) && CanReturn(w.books, part)
    ensures 0 < w.books.parts[part].quantity
  {
  }

  lemma {:induction false} SaleMovesOut(w: World, products: map<Id, Product>, customers: map<Id, Customer>,
                                        req: SaleRequest, plans: seq<seq<Fefo.Allocation>>)
    requires SaleEnabled(w, products, customers, req, plans) && |plans| == |req.lines|
    ensures MovesOut(w.stock.ledger, AfterSale(w, products, req, plans).stock.ledger, req.warehouse, RetailSale)
  {
    IssueLinesMoveOut(w.stock, req.warehouse, LinesOf(req.lines), req.asOf, RetailSale, plans);
  }

  lemma {:induction false} RunSigned(w: World, steps: seq<Step>)
    requires Inv(w) && RunOk(w, steps) && SignsOk(w.stock.ledger)
    ensures SignsOk(After(w, steps).stock.ledger)
    decreases |steps|
  {
    if steps != [] {
      hide Enabled, Apply, Inv, SignsOk;
      StepKeeps(w, steps[0]);
      StepSigned(w, steps[0]);
      RunSigned(Apply(w, steps[0]), steps[1..]);
    }
  }

  /** In every reachable world sales, dispatches, purchase returns, damage, expiry and
      consumed parts have only taken stock out; purchases, opening stock and returns have
      only brought stock in. */
  lemma {:induction false} MovementsHaveTheirSign(steps: seq<Step>)
    requires RunOk(NOTHING_YET, steps)
    ensures SignsOk(After(NOTHING_YET, steps).stock.ledger)
  {
    StartsOk();
    RunSigned(NOTHING_YET, steps);
  }

  // --- Books ------------------------------------------------------------------------------------

  /** In every reachable world the receivable account is what the invoices are owed
      less the receipts not yet applied, every customer's unfiltered statement
      closes at that customer's share of the same difference, and the trial balance
      balances for every date range. */
  lemma {:induction false} BooksAlwaysAgree(steps: seq<Step>, customer: Id, opening: int,
                                            dateFrom: Option<Date>, dateTo: Option<Date>)
    requires RunOk(NOTHING_YET, steps)
    ensures var b := After(NOTHING_YET, steps).books;
            && AccountBalance(b.journal, AR)
               == OutstandingTotal(b.invoices) - Unallocated(b.payments, b.allocations, |b.payments|)
            && opening + Statement.Invoiced(b.invoices, customer, None, None)
                       - Statement.ReceivedFrom(b.payments, customer, None, None)
               == opening + CustomerOutstanding(b.invoices, customer)
                          - CustomerUnallocated(b.payments, b.allocations, customer, |b.payments|)
            && var lines := Accounting.Lines(Accounting.Within(b.journal, dateFrom, dateTo));
               Debits(lines) == Credits(lines)
  {
    StartsOk();
    RunKeeps(NOTHING_YET, steps);
    var b := After(NOTHING_YET, steps).books;
    assert Reconciled(b);
    hide *;
    ReceivableAgrees(b);
    Statement.StatementCloses(b, customer, opening);
    Accounting.TrialBalanceBalances(b, dateFrom, dateTo);
  }

  /** In every reachable world an invoice's paid amount is the sum of its
      allocations and never more than its total; it is PAID when a positive total is
      fully paid, CREDIT when nothing is, PARTIAL otherwise; so what the credit
      checks sum, skipping PAID ones, is all the customer owes. */
  lemma {:induction false} InvoicesAlwaysConsistent(steps: seq<Step>, i: nat, customer: Id)
    requires RunOk(NOTHING_YET, steps) && i < |After(NOTHING_YET, steps).books.invoices|
    ensures var b := After(NOTHING_YET, steps).books;
            var inv := b.invoices[i];
            && 0 <= inv.paid <= inv.grandTotal && inv.paid == AllocatedTo(b.allocations, i)
            && inv.status == (if 0 < inv.grandTotal && inv.paid == inv.grandTotal then Paid
                              else if inv.paid == 0 then Credit else Partial)
            && CustomerOutstanding(b.invoices, customer) == CustomerOwes(b.invoices, customer)
  {
    StartsOk();
    RunKeeps(NOTHING_YET, steps);
    var b := After(NOTHING_YET, steps).books;
    assert InvoiceOk(b.invoices[i]);
    FilterLosesNothing(b.invoices, customer);
  }

  // --- Credit limit -----------------------------------------------------------------------------

  /** The step reads this limit for the customer, and ships nothing to them. */
  predicate WithinCredit(w: World, step: Step, customer: Id, limit: int) {
    match step
    case Sell(_, customers, _, _) => customer in customers ==> customers[customer].creditLimit == limit
    case Dispatch(id, _, _, _) => id < |w.books.orders| ==> w.books.orders[id].customer != customer
    case _ => true
  }

  ghost predicate CreditRun(w: World, steps: seq<Step>, customer: Id, limit: int)
    requires RunOk(w, steps)
    decreases |steps|
  {
    steps == []
    || (WithinCredit(w, steps[0], customer, limit) && CreditRun(Apply(w, steps[0]), steps[1..], customer, limit))
  }

  lemma {:induction false} StepWithinLimit(w: World, step: Step, customer: Id, limit: int)
    requires Inv(w) && Enabled(w, step) && WithinCredit(w, step, customer, limit)
    requires 0 < limit && CustomerOutstanding(w.books.invoices, customer) <= limit
    ensures CustomerOutstanding(Apply(w, step).books.invoices, customer) <= limit
  {
    assert InvoicesOk(w.books.invoices);
    hide StockOk, BooksOk, SaleOk, OrderOk, IssueLinesOk, ReserveLinesOk, DispatchLinesOk, CustomerOutstanding,
         InvoicesOk,
         ApplyReceipt, ApplyRetailSale;
    match step
    case Sell(products, customers, req, plans) =>
      if !IsRetry(w, step) {
        SaleKeepsLimit(w.books, w.stock, products, customers, req, customer, limit);
      }
    case Dispatch(id, date, asOf, ships) =>
      OutstandingOfSnoc(w.books.invoices, OrderInvoice(w.books, w.books.orders[id], date), customer);
    case Collect(_, payer, amount, mode, paymentDate, today) =>
      ReceiptLowersOutstanding(w.books, payer, amount, mode, paymentDate, today, customer);
      FilterLosesNothing(w.books.invoices, customer);
    case _ =>
  }

  /** Over any run of sales and collections, whatever happens to stock, orders and
      other customers' dispatches in between, a customer with a fixed positive limit
      who starts at or below it stays there. */
  lemma {:induction false} LimitHolds(w: World, steps: seq<Step>, customer: Id, limit: int)
    requires Inv(w) && RunOk(w, steps) && CreditRun(w, steps, customer, limit)
    requires 0 < limit && CustomerOutstanding(w.books.invoices, customer) <= limit
    ensures CustomerOutstanding(After(w, steps).books.invoices, customer) <= limit
    decreases |steps|
  {
    if steps != [] {
      hide Inv, Enabled, Apply, WithinCredit, CustomerOutstanding;
      StepKeeps(w, steps[0]);
      StepWithinLimit(w, steps[0], customer, limit);
      LimitHolds(Apply(w, steps[0]), steps[1..], customer, limit);
    }
  }

  /** What a step adds to the customer's exposure, and what it takes off. */
  function ExposureAdded(w: World, step: Step, customer: Id): int {
    match step
    case Sell(products, _, req, _) =>
      if !IsRetry(w, step) && req.customer == Some(customer)
      then CartTotals(products, req.lines, Counter).grand - TenderTotal(req.tenders) else 0
    case PlaceOrder(products, _, req, _) =>
      if !req.isQuotation && req.customer == customer then CartTotals(products, req.lines, Dealer).grand else 0
    case Collect(_, payer, amount, _, _, _) =>
      if payer == customer then -Min(amount, CustomerOutstanding(w.books.invoices, customer)) else 0
    case _ => 0
  }

  /** Sales and orders add, receipts subtract, and dispatches move nothing. */
  lemma {:induction false} StepExposure(w: World, step: Step, customer: Id)
    requires Inv(w) && Enabled(w, step)
    ensures Exposure(Apply(w, step).books, customer) == Exposure(w.books, customer) + ExposureAdded(w, step, customer)
  {
    hide StockOk, BooksOk, WorkshopOk, SaleOk, OrderOk, IssueLinesOk, ReserveLinesOk, DispatchLinesOk, CanIssue,
         CustomerOutstanding, ConfirmedTotal, ApplyReceipt, ApplyRetailSale, ApplyOrder, ApplyOrderDispatch, CartTotals,
         TenderTotal;
    match step
    case Sell(products, customers, req, plans) =>
      if !IsRetry(w, step) {
        SaleExposure(w, products, customers, req, customer);
      }
    case PlaceOrder(products, _, req, _) => OrderAddsExposure(w.books, products, req, customer);
    case Dispatch(id, date, _, _) => DispatchKeepsExposure(w.books, id, date, customer);
    case Collect(_, payer, amount, mode, paymentDate, today) =>
      ReceiptExposure(w, payer, amount, mode, paymentDate, today, customer);
    case _ =>
  }

  lemma {:induction false} SaleExposure(w: World, products: map<Id, Product>, customers: map<Id, Customer>,
                                        req: SaleRequest, customer: Id)
    requires TendersOk(req.tenders) && SaleOk(w.books, w.stock, products, customers, req)
    ensures Exposure(ApplyRetailSale(w.books, products, req), customer)
         == Exposure(w.books, customer)
            + if req.customer == Some(customer)
              then CartTotals(products, req.lines, Counter).grand - TenderTotal(req.tenders) else 0
  {
    var inv := SaleInvoice(w.books, products, req);
    SaleInvoiceOk(w.books, products, req);
    hide CustomerOutstanding, ConfirmedTotal, CartTotals, TenderTotal, CanIssue, Enough, CartOk;
    OutstandingOfSnoc(w.books.invoices, inv, customer);
  }

  lemma {:induction false} ReceiptExposure(w: World, payer: Id, amount: int, mode: PaymentMethod, paymentDate: Date,
                                           today: Date, customer: Id)
    requires Inv(w) && 0 < amount
    ensures Exposure(ApplyReceipt(w.books, payer, amount, mode, paymentDate, today), customer)
         == Exposure(w.books, customer)
            - if payer == customer then Min(amount, CustomerOutstanding(w.books.invoices, customer)) else 0
  {
    assert InvoicesOk(w.books.invoices);
    hide CustomerOutstanding, ConfirmedTotal, Inv;
    ReceiptLowersOutstanding(w.books, payer, amount, mode, paymentDate, today, customer);
  }

  /** The check the calls do not make: this sale or order, with everything owed and
      everything confirmed before it, is within the limit. */
  predicate ChecksExposure(w: World, step: Step, customer: Id, limit: int) {
    0 < ExposureAdded(w, step, customer) ==> Exposure(w.books, customer) + ExposureAdded(w, step, customer) <= limit
  }

  ghost predicate ExposureRun(w: World, steps: seq<Step>, customer: Id, limit: int)
    requires RunOk(w, steps)
    decreases |steps|
  {
    steps == []
    || (ChecksExposure(w, steps[0], customer, limit) && ExposureRun(Apply(w, steps[0]), steps[1..], customer, limit))
  }

  /** With that check, a customer who starts with an exposure within a limit never owes
      more than it over any run, orders, dispatches, sales and receipts included. */
  lemma {:induction false} ExposureHolds(w: World, steps: seq<Step>, customer: Id, limit: int)
    requires Inv(w) && RunOk(w, steps) && ExposureRun(w, steps, customer, limit)
    requires Exposure(w.books, customer) <= limit
    ensures Exposure(After(w, steps).books, customer) <= limit
    ensures CustomerOutstanding(After(w, steps).books.invoices, customer) <= limit
    decreases |steps|
  {
    if steps == [] {
      ConfirmedTotalNonNegative(w.books.orders, customer);
    } else {
      hide Inv, Enabled, Apply, Exposure, ExposureAdded;
      StepKeeps(w, steps[0]);
      StepExposure(w, steps[0], customer);
      ExposureHolds(Apply(w, steps[0]), steps[1..], customer, limit);
    }
  }

  // --- Retries ----------------------------------------------------------------------------------

  /** The run with every sale dropped whose key was already recorded. */
  ghost function WithoutRetries(w: World, steps: seq<Step>): seq<Step>
    requires RunOk(w, steps)
    decreases |steps|
  {
    if steps == [] then []
    else (if IsRetry(w, steps[0]) then [] else [steps[0]]) + WithoutRetries(Apply(w, steps[0]), steps[1..])
  }

  /** Retries are stuttering steps: dropping them all leaves a run that ends in the
      same stock, documents, journals and sequence values. */
  lemma {:induction false} RetriesStutter(w: World, steps: seq<Step>)
    requires RunOk(w, steps)
    ensures RunOk(w, WithoutRetries(w, steps)) && After(w, WithoutRetries(w, steps)) == After(w, steps)
    decreases |steps|
  {
    if steps != [] {
      var next := Apply(w, steps[0]);
      var rest := WithoutRetries(next, steps[1..]);
      assert IsRetry(w, steps[0]) ==> next == w;
      hide Enabled, Apply, IsRetry;
      RetriesStutter(next, steps[1..]);
      if IsRetry(w, steps[0]) {
        assert [] + rest == rest;
      } else {
        assert ([steps[0]] + rest)[1..] == rest;
      }
    }
  }

  /** A recorded key keeps its invoice. */
  lemma {:induction false} KeyStays(w: World, steps: seq<Step>, key: string)
    requires RunOk(w, steps) && key in w.books.keys
    ensures key in After(w, steps).books.keys && After(w, steps).books.keys[key] == w.books.keys[key]
    decreases |steps|
  {
    if steps != [] {
      StepKeepsKey(w, steps[0], key);
      hide Enabled, Apply;
      KeyStays(Apply(w, steps[0]), steps[1..], key);
    }
  }

  lemma {:induction false} StepKeepsKey(w: World, step: Step, key: string)
    requires Enabled(w, step) && key in w.books.keys
    ensures key in Apply(w, step).books.keys && Apply(w, step).books.keys[key] == w.books.keys[key]
  {
    hide SaleOk, OrderOk, IssueLinesOk, ReserveLinesOk, DispatchLinesOk;
  }

  predicate SellsUnder(step: Step, key: string) {
    step.Sell? && step.sale.key == Some(key)
  }

  /** Once recorded, a key sells nothing any more: what is left after dropping
      retries has no sale under it. */
  lemma {:induction false} RecordedSellsNothing(w: World, steps: seq<Step>, key: string)
    requires RunOk(w, steps) && key in w.books.keys
    ensures forall i :: 0 <= i < |WithoutRetries(w, steps)| ==> !SellsUnder(WithoutRetries(w, steps)[i], key)
    decreases |steps|
  {
    if steps != [] {
      StepKeepsKey(w, steps[0], key);
      RecordedRetries(w, steps[0], key);
      hide Enabled, Apply, IsRetry, SellsUnder;
      RecordedSellsNothing(Apply(w, steps[0]), steps[1..], key);
    }
  }

  lemma {:induction false} RecordedRetries(w: World, step: Step, key: string)
    requires Enabled(w, step) && key in w.books.keys
    ensures SellsUnder(step, key) ==> IsRetry(w, step)
  {
    hide IssueLinesOk;
  }

  /** So each key sells at most once in any run. */
  lemma {:induction false} OneSalePerKey(w: World, steps: seq<Step>, key: string, i: nat, j: nat)
    requires RunOk(w, steps) && i < j < |WithoutRetries(w, steps)|
    requires SellsUnder(WithoutRetries(w, steps)[i], key)
    ensures !SellsUnder(WithoutRetries(w, steps)[j], key)
    decreases |steps|
  {
    hide Enabled, Apply, IsRetry, SellsUnder;
    var next := Apply(w, steps[0]);
    var rest := WithoutRetries(next, steps[1..]);
    if IsRetry(w, steps[0]) {
      assert [] + rest == rest;
      OneSalePerKey(next, steps[1..], key, i, j);
    } else if i == 0 {
      SaleRecords(w, steps[0], key);
      RecordedSellsNothing(next, steps[1..], key);
    } else {
      OneSalePerKey(next, steps[1..], key, i - 1, j - 1);
    }
  }

  lemma {:induction false} SaleRecords(w: World, step: Step, key: string)
    requires Enabled(w, step) && !IsRetry(w, step) && SellsUnder(step, key)
    ensures key in Apply(w, step).books.keys
  {
    hide SaleOk, IssueLinesOk;
  }

  /** Each key names at most one invoice, an existing one, and no invoice has two
      keys. */
  lemma {:induction false} KeysNameInvoices(steps: seq<Step>, j: string, k: string)
    requires RunOk(NOTHING_YET, steps)
    ensures var b := After(NOTHING_YET, steps).books;
            && (k in b.keys ==> b.keys[k] < |b.invoices|)
            && (j in b.keys && k in b.keys && j != k ==> b.keys[j] != b.keys[k])
  {
    StartsOk();
    RunKeeps(NOTHING_YET, steps);
  }

  // --- Repair jobs ------------------------------------------------------------------------------

  /** In every reachable world a job's parts total is the value of its parts not yet
      returned, its bill is labour plus that, parts waived under warranty, and the
      ledger's repair movements of a product add up to minus what is out at the
      warehouse's jobs, whatever else the ledger records. */
  lemma {:induction false} WorkshopAlwaysAgrees(steps: seq<Step>, j: nat, slot: Slot)
    requires RunOk(NOTHING_YET, steps)
    ensures var w := After(NOTHING_YET, steps);
            && RepairMovements(w.stock.ledger, slot) == -OutAtJobs(w.books.jobs, w.books.parts, slot)
            && (j < |w.books.jobs| ==>
                  var job := w.books.jobs[j];
                  && job.partsTotal == PartsValue(w.books.parts, j)
                  && job.customerPayable == job.labourCharges + if job.underWarranty then 0 else job.partsTotal)
  {
    StartsOk();
    RunKeeps(NOTHING_YET, steps);
    var b := After(NOTHING_YET, steps).books;
    assert j < |b.jobs| ==> JobOk(b.jobs[j], b.parts, j);
  }

  // --- Document numbers -------------------------------------------------------------------------

  /** In every reachable world the numbers of a sequence run 1, 2, ... without a gap in
      the order its documents were written, and no two documents of a table, whatever
      their branches, print the same number. */
  lemma {:induction false} DocumentNumbers(steps: seq<Step>, scope: Scope, j: nat, k: nat)
    requires RunOk(NOTHING_YET, steps)
    ensures var b := After(NOTHING_YET, steps).books;
            var rows := Rows(b, scope.document);
            && ValuesOf(rows, scope) == From(1, NextValue(b.numbers, scope))
            && (j < k < |rows| ==> Printed(rows[j].number) != Printed(rows[k].number))
  {
    StartsOk();
    RunKeeps(NOTHING_YET, steps);
    hide RunOk, After;
    TableNumbers(After(NOTHING_YET, steps).books, scope, j, k);
  }

  lemma {:induction false} TableNumbers(b: Books, scope: Scope, j: nat, k: nat)
    requires NumbersOk(b)
    ensures var rows := Rows(b, scope.document);
            && ValuesOf(rows, scope) == From(1, NextValue(b.numbers, scope))
            && (j < k < |rows| ==> Printed(rows[j].number) != Printed(rows[k].number))
  {
    hide Printed, ValuesOf, SequencesOk, RowsOk;
    assert RegisterOk(Rows(b, scope.document), Sharing(scope.document), b.numbers, b.codes);
  }

  /** In every reachable world the next document of an existing branch is refused for
      its number if and only if another branch, whose code agrees on its first eleven
      characters, has issued more; so never while all codes differ that early. */
  lemma {:induction false} NumberRefusedExactly(steps: seq<Step>, scope: Scope)
    requires RunOk(NOTHING_YET, steps) && KnownBranch(scope.branch, After(NOTHING_YET, steps).books.codes)
    ensures var b := After(NOTHING_YET, steps).books;
            && (CanIssue(b, scope) <==> !Overtaken(b.numbers, b.codes, scope))
            && (DistinctCodes(b.codes) ==> CanIssue(b, scope))
  {
    StartsOk();
    RunKeeps(NOTHING_YET, steps);
    var b := After(NOTHING_YET, steps).books;
    hide RunOk, After;
    IssuableExactly(b, scope);
    if DistinctCodes(b.codes) {
      DistinctCodesNeverRefused(b.numbers, b.codes, scope);
    }
  }

  lemma {:induction false} IssuedProceeds(b: Books, after: Books, scope: Scope)
    requires NumbersOk(b) && CanIssue(b, scope)
    requires after.numbers == Advanced(b.numbers, b.codes, scope) && after.codes == b.codes
    ensures Proceeds(b.numbers, b.codes, after.numbers, after.codes)
  {
    hide NumbersOk, CanIssue, Proceeds, Advanced, Overtaken;
    IssuableExactly(b, scope);
    SequencesAre(b);
    IssueProceeds(b.numbers, b.codes, scope);
  }

  lemma {:induction false} SequencesAre(b: Books)
    requires NumbersOk(b)
    ensures SequencesOk(b.numbers, b.codes)
  {
  }

  lemma {:induction false} NothingProceeds(b: Books, after: Books)
    requires after.numbers == b.numbers && forall x :: x in b.codes ==> x in after.codes && after.codes[x] == b.codes[x]
    ensures Proceeds(b.numbers, b.codes, after.numbers, after.codes)
  {
    hide Overtaken;
  }

  lemma {:induction false} StepProceeds(w: World, step: Step)
    requires Inv(w) && Enabled(w, step)
    ensures var b, after := w.books, Apply(w, step).books; Proceeds(b.numbers, b.codes, after.numbers, after.codes)
  {
    assert NumbersOk(w.books);
    var after := Apply(w, step).books;
    hide Inv, NumbersOk, CanIssue, Advanced, Proceeds, NextOf, Enough, CartOk, PaymentOk, LimitOk, IssueLinesOk,
         ReserveLinesOk, DispatchLinesOk, ApplyReceipt, ShippedItems, ItemsOf, CartTotals, TenderTotal;
    match step
    case TakeIn(_, req) => IssuedProceeds(w.books, after, JobScope(req));
    case PlaceOrder(_, _, req, _) => IssuedProceeds(w.books, after, ScopeOf(req));
    case Dispatch(id, _, _, _) => IssuedProceeds(w.books, after, ShipScope(w.books.orders[id]));
    case Sell(_, _, req, _) =>
      if IsRetry(w, step) {
        NothingProceeds(w.books, after);
      } else {
        IssuedProceeds(w.books, after, InvoiceScope(req));
      }
    case Collect(_, customer, amount, mode, paymentDate, today) =>
      ReceiptNumbers(w.books, customer, amount, mode, paymentDate, today);
      NothingProceeds(w.books, after);
    case _ => NothingProceeds(w.books, after);
  }

  lemma {:induction false} ReceiptNumbers(b: Books, customer: Id, amount: int, mode: PaymentMethod, paymentDate: Date,
                                          today: Date)
    ensures ApplyReceipt(b, customer, amount, mode, paymentDate, today).numbers == b.numbers
    ensures ApplyReceipt(b, customer, amount, mode, paymentDate, today).codes == b.codes
  {
  }

  /** A branch that loses the race never prints another document of that type: it stays
      refused and its sequence stands still, in any run. */
  lemma {:induction false} OvertakenForEver(w: World, steps: seq<Step>, scope: Scope)
    requires Inv(w) && RunOk(w, steps) && Overtaken(w.books.numbers, w.books.codes, scope)
    ensures var b := After(w, steps).books;
            && Overtaken(b.numbers, b.codes, scope) && !CanIssue(b, scope)
            && NextValue(b.numbers, scope) == NextValue(w.books.numbers, scope)
            && ValuesOf(Rows(b, scope.document), scope) == ValuesOf(Rows(w.books, scope.document), scope)
    decreases |steps|
  {
    TableNumbers(w.books, scope, 0, 0);
    if steps == [] {
      IssuableExactly(w.books, scope);
    } else {
      var next := Apply(w, steps[0]);
      StepKeeps(w, steps[0]);
      StepProceeds(w, steps[0]);
      hide Inv, Enabled, Apply, Overtaken, CanIssue;
      OvertakenStays(w.books.numbers, w.books.codes, next.books.numbers, next.books.codes, scope);
      TableNumbers(next.books, scope, 0, 0);
      OvertakenForEver(next, steps[1..], scope);
    }
  }
}
