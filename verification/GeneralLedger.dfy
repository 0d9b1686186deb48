/** Account by account, the journal says what the documents say: sales and tax what
    the invoices charge, each money account what was tendered into it, the
    receivable what is owed less what is unapplied, every other account nothing
    (sales/service.py:354-395, sales/wholesale_service.py:290-309,
    collections/service.py:108-122). */
module GeneralLedger {
  import opened Prelude
  import opened Stock
  import opened Documents
  import opened StockLines
  import opened Settlement
  import opened Bookkeeping
  import opened JournalEffects
  import opened Catalogue
  import opened SaleRules
  import opened OrderRules
  import opened Numbering
  import opened Registers
  import opened Runs

  function Subtotals(invoices: seq<Invoice>): int {
    if invoices == [] then 0 else Subtotals(invoices[..|invoices| - 1]) + invoices[|invoices| - 1].subtotal
  }

  function Taxes(invoices: seq<Invoice>): int {
    if invoices == [] then 0 else Taxes(invoices[..|invoices| - 1]) + invoices[|invoices| - 1].taxTotal
  }

  /** What the documents say an account's balance is, debits less credits. */
  function Documented(b: Books, account: Account): int {
    match account
    case SALES => -Subtotals(b.invoices)
    case GST_OUTPUT => -Taxes(b.invoices)
    case AR => OutstandingTotal(b.invoices) - Advances(b)
    case CASH | BANK | UPI | CARD => ReceivedBy(b.payments, ModesInto(account))
    case AP | GST_INPUT | PURCHASES => 0
  }

  ghost predicate LedgerOk(b: Books) {
    forall account :: AccountBalance(b.journal, account) == Documented(b, account)
  }

  // --- Documents, extended -----------------------------------------------------------------

  lemma {:induction false} InvoiceSums(invoices: seq<Invoice>, inv: Invoice)
    ensures Subtotals(invoices + [inv]) == Subtotals(invoices) + inv.subtotal
    ensures Taxes(invoices + [inv]) == Taxes(invoices) + inv.taxTotal
  {
    assert (invoices + [inv])[..|invoices|] == invoices;
  }

  lemma {:induction false} SettledSums(a: seq<Invoice>, b: seq<Invoice>)
    requires |a| == |b| && forall i :: 0 <= i < |a| ==> a[i].subtotal == b[i].subtotal && a[i].taxTotal == b[i].taxTotal
    ensures Subtotals(a) == Subtotals(b) && Taxes(a) == Taxes(b)
  {
    if a != [] {
      SettledSums(a[..|a| - 1], b[..|b| - 1]);
    }
  }

  lemma {:induction false} SettledKeepsTotals(invoices: seq<Invoice>, allocations: seq<InvoiceAllocation>)
    ensures forall i :: 0 <= i < |invoices| ==>
              Settled(invoices, allocations)[i].subtotal == invoices[i].subtotal
              && Settled(invoices, allocations)[i].taxTotal == invoices[i].taxTotal
  {
    hide To;
  }

  lemma {:induction false} PositiveTotal(tenders: seq<Tender>)
    requires TendersOk(tenders) && TenderTotal(tenders) <= 0
    ensures tenders == []
  {
    if tenders != [] {
      TenderLinesSum(tenders);
    }
  }

  // --- The three steps -----------------------------------------------------------------------

  /** How a sale moves what the documents say. */
  lemma {:induction false} SaleDocuments(b: Books, inv: Invoice, tenders: seq<Tender>, today: Date, account: Account)
    requires inv.paid == TenderTotal(tenders)
    ensures Documented(ApplySale(b, inv, tenders, today), account)
         == Documented(b, account) + SaleEffect(inv, tenders, account)
  {
    var p, n := |b.payments|, |b.invoices|;
    InvoiceSums(b.invoices, inv);
    OutstandingSnoc(b.invoices, inv);
    ReceivedConcat(b.payments, TenderPayments(inv.customer, tenders, today));
    ReceivedByConcat(b.payments, TenderPayments(inv.customer, tenders, today), ModesInto(account));
    AllocatedConcat(b.allocations, TenderAllocations(tenders, p, n), 0);
    TenderRowsSum(inv.customer, tenders, today, p, n);
    TendersReceived(inv.customer, tenders, today, ModesInto(account));
    hide Subtotals, Taxes, OutstandingTotal, Received, Allocated, ReceivedBy, TenderPayments, TenderAllocations,
         TenderedBy,
         TenderTotal, SaleJournal;
  }

  lemma {:induction false} SaleLedger(b: Books, inv: Invoice, tenders: seq<Tender>, today: Date)
    requires LedgerOk(b) && Priced(inv) && TendersOk(tenders) && inv.paid == TenderTotal(tenders) <= inv.grandTotal
    ensures LedgerOk(ApplySale(b, inv, tenders, today))
  {
    var after := ApplySale(b, inv, tenders, today);
    forall account ensures AccountBalance(after.journal, account) == Documented(after, account) {
      SaleDocuments(b, inv, tenders, today, account);
      if 0 < inv.grandTotal {
        SaleLinesBalance(inv, tenders, account);
        BalanceSnoc(b.journal, JournalEntry(inv.date, SaleLines(inv, tenders)), account);
      } else {
        PositiveTotal(tenders);
        assert b.journal + [] == b.journal;
      }
    }
  }

  /** A dispatch is a sale with no tenders. */
  lemma {:induction false} DispatchDocuments(b: Books, inv: Invoice, account: Account)
    requires inv.paid == 0
    ensures Documented(ApplyDispatch(b, inv), account) == Documented(b, account) + SaleEffect(inv, [], account)
  {
    assert TenderTotal([]) == 0;
    assert b.payments + [] == b.payments && b.allocations + [] == b.allocations;
    hide Documented;
    SaleDocuments(b, inv, [], 0, account);
    SameDocuments(ApplySale(b, inv, [], 0), ApplyDispatch(b, inv), account);
  }

  lemma {:induction false} SameDocuments(a: Books, b: Books, account: Account)
    requires a.invoices == b.invoices && a.payments == b.payments && a.allocations == b.allocations
    ensures Documented(a, account) == Documented(b, account)
  {
  }

  lemma {:induction false} DispatchLedger(b: Books, inv: Invoice)
    requires LedgerOk(b) && Priced(inv) && inv.paid == 0
    ensures LedgerOk(ApplyDispatch(b, inv))
  {
    var after := ApplyDispatch(b, inv);
    assert TenderTotal([]) == 0;
    hide Documented, AccountBalance, CreditSaleLines;
    forall account ensures AccountBalance(after.journal, account) == Documented(after, account) {
      DispatchDocuments(b, inv, account);
      if 0 < inv.grandTotal {
        CreditSaleBalance(inv, account);
        BalanceSnoc(b.journal, JournalEntry(inv.date, CreditSaleLines(inv)), account);
      } else {
        assert b.journal + [] == b.journal;
      }
    }
  }

  lemma {:induction false} ReceiptDocuments(b: Books, customer: Id, amount: int, mode: PaymentMethod, paymentDate: Date,
                                            today: Date, account: Account)
    requires InvoicesOk(b.invoices) && 0 < amount
    ensures Documented(ApplyReceipt(b, customer, amount, mode, paymentDate, today), account)
         == Documented(b, account) + ReceiptEffect(mode, amount, account)
  {
    var after := ApplyReceipt(b, customer, amount, mode, paymentDate, today);
    var payment := Payment(Some(customer), mode, amount, today);
    ReceiptOutstanding(b.invoices, customer, amount);
    ReceiptChange(b, customer, amount, mode, paymentDate, today);
    SettledKeepsTotals(b.invoices, ReceiptAllocations(b.invoices, customer, amount));
    SettledSums(after.invoices, b.invoices);
    assert [payment][..0] == [];
    hide ReceiptAllocations, Settled, ReceiptLines, OutstandingTotal, Advances, Subtotals, Taxes, AccountBalance,
         ReceiptRows;
    ReceivedByConcat(b.payments, [payment], ModesInto(account));
  }

  lemma {:induction false} ReceiptLedger(b: Books, customer: Id, amount: int, mode: PaymentMethod, paymentDate: Date,
                                         today: Date)
    requires LedgerOk(b) && InvoicesOk(b.invoices) && 0 < amount
    ensures LedgerOk(ApplyReceipt(b, customer, amount, mode, paymentDate, today))
  {
    var after := ApplyReceipt(b, customer, amount, mode, paymentDate, today);
    hide ReceiptAllocations, Settled, ReceiptLines, ReceiptRows, Documented, AccountBalance, InvoicesOk;
    forall account ensures AccountBalance(after.journal, account) == Documented(after, account) {
      ReceiptDocuments(b, customer, amount, mode, paymentDate, today, account);
      ReceiptLinesBalance(mode, amount, account);
      BalanceSnoc(b.journal, JournalEntry(paymentDate, ReceiptLines(mode, amount)), account);
    }
  }

  // --- Runs ----------------------------------------------------------------------------------

  lemma {:induction false} SameLedger(a: Books, b: Books)
    requires LedgerOk(a) && a.invoices == b.invoices && a.payments == b.payments
    requires a.allocations == b.allocations && a.journal == b.journal
    ensures LedgerOk(b)
  {
    forall account ensures AccountBalance(b.journal, account) == Documented(b, account) {
      assert AccountBalance(a.journal, account) == Documented(a, account);
    }
  }

  lemma {:induction false} StepLedger(w: World, step: Step)
    requires Inv(w) && LedgerOk(w.books) && Enabled(w, step)
    ensures LedgerOk(Apply(w, step).books)
  {
    assert InvoicesOk(w.books.invoices) && OrdersOk(w.books.orders);
    hide Inv, LedgerOk, OrderOk, IssueLinesOk, ReserveLinesOk, DispatchLinesOk, InvoicesOk, OrdersOk, ApplyReceipt,
         CanIssue,
         Advanced, NextOf;
    match step
    case PlaceOrder(products, _, req, _) => SameLedger(w.books, ApplyOrder(w.books, products, req));
    case Dispatch(id, date, _, _) => OrderLedger(w.books, id, date);
    case Sell(products, customers, req, plans) =>
      if !IsRetry(w, step) {
        RetailLedger(w, products, customers, req);
      }
    case Collect(_, customer, amount, mode, paymentDate, today) =>
      ReceiptLedger(w.books, customer, amount, mode, paymentDate, today);
    case _ => SameLedger(w.books, Apply(w, step).books);
  }

  lemma {:induction false} OrderLedger(b: Books, id: nat, date: Date)
    requires LedgerOk(b) && OrdersOk(b.orders) && id < |b.orders|
    ensures LedgerOk(ApplyOrderDispatch(b, id, date))
  {
    var inv := OrderInvoice(b, b.orders[id], date);
    OrderInvoiceOk(b, b.orders[id], date);
    DispatchLedger(b, inv);
    hide LedgerOk;
    SameLedger(ApplyDispatch(b, inv), ApplyOrderDispatch(b, id, date));
  }

  lemma {:induction false} RetailLedger(w: World, products: map<Id, Product>, customers: map<Id, Customer>,
                                        req: SaleRequest)
    requires LedgerOk(w.books) && TendersOk(req.tenders) && SaleOk(w.books, w.stock, products, customers, req)
    ensures LedgerOk(ApplyRetailSale(w.books, products, req))
  {
    var inv := SaleInvoice(w.books, products, req);
    SaleInvoiceOk(w.books, products, req);
    SaleLedger(w.books, inv, req.tenders, req.today);
    hide LedgerOk, CartTotals, TenderTotal;
    SameLedger(ApplySale(w.books, inv, req.tenders, req.today), ApplyRetailSale(w.books, products, req));
  }

  lemma {:induction false} RunLedger(w: World, steps: seq<Step>)
    requires Inv(w) && LedgerOk(w.books) && RunOk(w, steps)
    ensures LedgerOk(After(w, steps).books)
    decreases |steps|
  {
    if steps != [] {
      hide Inv, LedgerOk, Enabled, Apply;
      StepKeeps(w, steps[0]);
      StepLedger(w, steps[0]);
      RunLedger(Apply(w, steps[0]), steps[1..]);
    }
  }

  /** In every reachable world, every account's balance is what the documents say. */
  lemma {:induction false} LedgerMatchesDocuments(steps: seq<Step>, account: Account)
    requires RunOk(NOTHING_YET, steps)
    ensures var b := After(NOTHING_YET, steps).books; AccountBalance(b.journal, account) == Documented(b, account)
  {
    StartsOk();
    RunLedger(NOTHING_YET, steps);
  }

  /** So each money account holds exactly what was paid by its own methods. */
  lemma {:induction false} MoneyAccounts(steps: seq<Step>)
    requires RunOk(NOTHING_YET, steps)
    ensures var b := After(NOTHING_YET, steps).books;
            && AccountBalance(b.journal, CARD) == ReceivedBy(b.payments, {Card})
            && AccountBalance(b.journal, UPI) == ReceivedBy(b.payments, {Upi})
            && AccountBalance(b.journal, BANK) == ReceivedBy(b.payments, {BankTransfer, Cheque})
            && AccountBalance(b.journal, CASH) == ReceivedBy(b.payments, {Cash, CreditMethod, Advance})
  {
    LedgerMatchesDocuments(steps, CARD);
    LedgerMatchesDocuments(steps, UPI);
    LedgerMatchesDocuments(steps, BANK);
    LedgerMatchesDocuments(steps, CASH);
    hide RunOk, After, AccountBalance, ReceivedBy;
  }
}
