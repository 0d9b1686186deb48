/** How sales, dispatches and receipts extend the tables, and why the books go on
    agreeing with the documents (sales/service.py:302-395,
    sales/wholesale_service.py:233-309, collections/service.py:68-122). */
module Bookkeeping {
  import opened Prelude
  import opened Stock
  import opened Documents
  import opened Settlement

  datatype Tender = Tender(mode: PaymentMethod, amount: int)

  function TenderTotal(tenders: seq<Tender>): int {
    if tenders == [] then 0 else TenderTotal(tenders[..|tenders| - 1]) + tenders[|tenders| - 1].amount
  }

  predicate TendersOk(tenders: seq<Tender>) {
    forall i :: 0 <= i < |tenders| ==> 0 < tenders[i].amount
  }

  /** PAYMENT_METHOD_ACCOUNT, with CASH for the methods it does not list. */
  function TenderAccount(mode: PaymentMethod): Account {
    match mode
    case Upi => UPI
    case Card => CARD
    case BankTransfer | Cheque => BANK
    case Cash | CreditMethod | Advance => CASH
  }

  // --- The journals of the three paths -------------------------------------------------

  function TenderLines(tenders: seq<Tender>): seq<JournalLine> {
    if tenders == [] then []
    else
      var t := tenders[|tenders| - 1];
      TenderLines(tenders[..|tenders| - 1]) + [JournalLine(TenderAccount(t.mode), t.amount, 0)]
  }

  function TaxLines(inv: Invoice): seq<JournalLine> {
    if 0 < inv.taxTotal then [JournalLine(GST_OUTPUT, 0, inv.taxTotal)] else []
  }

  function CreditLines(inv: Invoice): seq<JournalLine> {
    if 0 < Outstanding(inv) then [JournalLine(AR, Outstanding(inv), 0)] else []
  }

  function SaleLines(inv: Invoice, tenders: seq<Tender>): seq<JournalLine> {
    [JournalLine(SALES, 0, inv.subtotal)] + TaxLines(inv) + TenderLines(tenders) + CreditLines(inv)
  }

  function CreditSaleLines(inv: Invoice): seq<JournalLine> {
    [JournalLine(AR, inv.grandTotal, 0), JournalLine(SALES, 0, inv.subtotal)] + TaxLines(inv)
  }

  function ReceiptLines(mode: PaymentMethod, amount: int): seq<JournalLine> {
    [JournalLine(TenderAccount(mode), amount, 0), JournalLine(AR, 0, amount)]
  }

  predicate LinesOk(lines: seq<JournalLine>) {
    forall i :: 0 <= i < |lines| ==> LineOk(lines[i])
  }

  /** The sums of the lines: debits, credits and the receivable's balance. */
  ghost predicate Sums(lines: seq<JournalLine>, debits: int, credits: int, receivable: int) {
    && LinesOk(lines)
    && Debits(lines) == debits && Credits(lines) == credits && LineBalance(lines, AR) == receivable
  }

  lemma {:induction false} NoLines()
    ensures Sums([], 0, 0, 0)
  {
  }

  lemma {:induction false} OneLine(l: JournalLine)
    requires LineOk(l)
    ensures Sums([l], l.debit, l.credit, if l.account == AR then l.debit - l.credit else 0)
  {
    assert [l][..0] == [];
  }

  lemma {:induction false} SumsConcat(a: seq<JournalLine>, b: seq<JournalLine>, d: int, c: int, r: int, e: int,
                                      f: int, s: int)
    requires Sums(a, d, c, r) && Sums(b, e, f, s)
    ensures Sums(a + b, d + e, c + f, r + s)
    decreases |b|
  {
    if b == [] {
      assert a + b == a;
    } else {
      var front, l := b[..|b| - 1], b[|b| - 1];
      var x := if l.account == AR then l.debit - l.credit else 0;
      assert a + b == (a + front) + [l];
      assert LineOk(l);
      SumsConcat(a, front, d, c, r, e - l.debit, f - l.credit, s - x);
      SumsSnoc(a + front, l, d + e - l.debit, c + f - l.credit, r + s - x);
    }
  }

  lemma {:induction false} SumsSnoc(a: seq<JournalLine>, l: JournalLine, d: int, c: int, r: int)
    requires Sums(a, d, c, r) && LineOk(l)
    ensures Sums(a + [l], d + l.debit, c + l.credit, r + if l.account == AR then l.debit - l.credit else 0)
  {
    assert (a + [l])[..|a|] == a;
  }

  lemma {:induction false} TenderLinesSum(tenders: seq<Tender>)
    requires TendersOk(tenders)
    ensures Sums(TenderLines(tenders), TenderTotal(tenders), 0, 0)
    ensures |TenderLines(tenders)| == |tenders|
    ensures 0 <= TenderTotal(tenders) && (tenders != [] ==> 0 < TenderTotal(tenders))
  {
    if tenders != [] {
      var front, t := tenders[..|tenders| - 1], tenders[|tenders| - 1];
      TenderLinesSum(front);
      SumsSnoc(TenderLines(front), JournalLine(TenderAccount(t.mode), t.amount, 0), TenderTotal(front), 0, 0);
    }
  }

  lemma {:induction false} TaxLinesSum(inv: Invoice)
    requires 0 <= inv.taxTotal
    ensures Sums(TaxLines(inv), 0, inv.taxTotal, 0)
  {
    NoLines();
    if 0 < inv.taxTotal {
      OneLine(JournalLine(GST_OUTPUT, 0, inv.taxTotal));
    }
  }

  /** An invoice with something on it whose tenders are what it was paid. */
  predicate Payable(inv: Invoice, tenders: seq<Tender>) {
    && 0 < inv.subtotal && 0 <= inv.taxTotal && inv.grandTotal == inv.subtotal + inv.taxTotal
    && TendersOk(tenders) && inv.paid == TenderTotal(tenders) <= inv.grandTotal
  }

  /** The retail journal balances whatever mix of tenders and credit paid for it. */
  lemma {:induction false} SaleJournalBalances(inv: Invoice, tenders: seq<Tender>)
    requires Payable(inv, tenders)
    ensures EntryOk(SaleLines(inv, tenders))
    ensures LineBalance(SaleLines(inv, tenders), AR) == Outstanding(inv)
  {
    var owed := Outstanding(inv);
    var sales := [JournalLine(SALES, 0, inv.subtotal)];
    OneLine(sales[0]);
    TaxLinesSum(inv);
    TenderLinesSum(tenders);
    NoLines();
    if 0 < owed {
      OneLine(JournalLine(AR, owed, 0));
    }
    hide Sums, TenderLines, TenderTotal;
    SumsConcat(sales, TaxLines(inv), 0, inv.subtotal, 0, 0, inv.taxTotal, 0);
    SumsConcat(sales + TaxLines(inv), TenderLines(tenders), 0, inv.grandTotal, 0, inv.paid, 0, 0);
    SumsConcat(sales + TaxLines(inv) + TenderLines(tenders), CreditLines(inv),
               inv.paid, inv.grandTotal, 0, owed, 0, owed);
    EntryFromSums(SaleLines(inv, tenders), inv.grandTotal, owed);
  }

  lemma {:induction false} EntryFromSums(lines: seq<JournalLine>, total: int, receivable: int)
    requires Sums(lines, total, total, receivable) && 2 <= |lines| && total != 0
    ensures EntryOk(lines) && LineBalance(lines, AR) == receivable
  {
  }

  lemma {:induction false} DispatchJournalBalances(inv: Invoice)
    requires Payable(inv, [])
    ensures EntryOk(CreditSaleLines(inv))
    ensures LineBalance(CreditSaleLines(inv), AR) == inv.grandTotal
  {
    OneLine(JournalLine(AR, inv.grandTotal, 0));
    TaxLinesSum(inv);
    var two := [JournalLine(AR, inv.grandTotal, 0)] + [JournalLine(SALES, 0, inv.subtotal)];
    SumsSnoc([JournalLine(AR, inv.grandTotal, 0)], JournalLine(SALES, 0, inv.subtotal),
             inv.grandTotal, 0, inv.grandTotal);
    SumsConcat(two, TaxLines(inv), inv.grandTotal, inv.subtotal, inv.grandTotal, 0, inv.taxTotal, 0);
    assert CreditSaleLines(inv) == two + TaxLines(inv);
  }

  lemma {:induction false} ReceiptJournalBalances(mode: PaymentMethod, amount: int)
    requires 0 < amount
    ensures EntryOk(ReceiptLines(mode, amount))
    ensures LineBalance(ReceiptLines(mode, amount), AR) == -amount
  {
    var first := JournalLine(TenderAccount(mode), amount, 0);
    OneLine(first);
    SumsSnoc([first], JournalLine(AR, 0, amount), amount, 0, 0);
    assert ReceiptLines(mode, amount) == [first] + [JournalLine(AR, 0, amount)];
  }

  // --- Sums over extended tables ---------------------------------------------------------

  lemma {:induction false} AllocatedConcat(a: seq<PaymentAllocation>, b: seq<PaymentAllocation>, id: nat)
    ensures AllocatedTo(a + b, id) == AllocatedTo(a, id) + AllocatedTo(b, id)
    ensures AllocatedFrom(a + b, id) == AllocatedFrom(a, id) + AllocatedFrom(b, id)
    ensures Allocated(a + b) == Allocated(a) + Allocated(b)
  {
    if b == [] {
      assert a + b == a;
    } else {
      var front := b[..|b| - 1];
      assert (a + b)[..|a + b| - 1] == a + front;
      AllocatedConcat(a, front, id);
    }
  }

  lemma {:induction false} ReceivedConcat(a: seq<Payment>, b: seq<Payment>)
    ensures Received(a + b) == Received(a) + Received(b)
  {
    if b == [] {
      assert a + b == a;
    } else {
      assert (a + b)[..|a + b| - 1] == a + b[..|b| - 1];
      ReceivedConcat(a, b[..|b| - 1]);
    }
  }

  lemma {:induction false} BalanceSnoc(journal: seq<JournalEntry>, e: JournalEntry, account: Account)
    ensures AccountBalance(journal + [e], account) == AccountBalance(journal, account) + LineBalance(e.lines, account)
  {
    assert (journal + [e])[..|journal|] == journal;
  }

  lemma {:induction false} OutstandingSnoc(invoices: seq<Invoice>, inv: Invoice)
    ensures OutstandingTotal(invoices + [inv]) == OutstandingTotal(invoices) + Outstanding(inv)
  {
    assert (invoices + [inv])[..|invoices|] == invoices;
  }

  lemma {:induction false} NothingTo(allocations: seq<PaymentAllocation>, i: nat)
    requires forall k :: 0 <= k < |allocations| ==> allocations[k].invoice != i
    ensures AllocatedTo(allocations, i) == 0
  {
    if allocations != [] {
      NothingTo(allocations[..|allocations| - 1], i);
    }
  }

  lemma {:induction false} NothingFrom(allocations: seq<PaymentAllocation>, p: nat)
    requires forall k :: 0 <= k < |allocations| ==> allocations[k].payment != p
    ensures AllocatedFrom(allocations, p) == 0
  {
    if allocations != [] {
      NothingFrom(allocations[..|allocations| - 1], p);
    }
  }

  // --- Linking new payments to invoices ---------------------------------------------------

  /** New payments and allocations that leave every paid amount backed. */
  ghost predicate Extends(payments: seq<Payment>, more: seq<Payment>, added: seq<PaymentAllocation>,
                          invoices: seq<Invoice>, after: seq<Invoice>) {
    && |invoices| <= |after|
    && (forall i :: 0 <= i < |after| ==>
          after[i].paid == AllocatedTo(added, i) + if i < |invoices| then invoices[i].paid else 0)
    && (forall i :: 0 <= i < |invoices| ==> after[i].customer == invoices[i].customer)
    && (forall k :: 0 <= k < |added| ==>
          AllocationOk(added[k], payments + more, after) && |payments| <= added[k].payment)
    && (forall p :: 0 <= p < |more| ==> 0 < more[p].amount && AllocatedFrom(added, |payments| + p) <= more[p].amount)
  }

  lemma {:induction false} LinkedExtends(payments: seq<Payment>, allocations: seq<PaymentAllocation>,
                                         invoices: seq<Invoice>,
                      more: seq<Payment>, added: seq<PaymentAllocation>, after: seq<Invoice>)
    requires Linked(payments, allocations, invoices)
    requires Extends(payments, more, added, invoices, after)
    ensures Linked(payments + more, allocations + added, after)
  {
    hide AllocatedTo, AllocatedFrom, Linked;
    LinkedParts(payments, allocations, invoices);
    AllocationsExtend(payments, allocations, invoices, more, added, after);
    PaidExtends(payments, allocations, invoices, more, added, after);
    SpentExtends(payments, allocations, invoices, more, added, after);
    LinkedFrom(payments + more, allocations + added, after);
  }

  lemma {:induction false} LinkedParts(payments: seq<Payment>, allocations: seq<PaymentAllocation>,
                                       invoices: seq<Invoice>)
    requires Linked(payments, allocations, invoices)
    ensures AllocationsOk(payments, allocations, invoices)
    ensures PaidIsAllocated(allocations, invoices)
    ensures NoneOverspent(payments, allocations)
  {
  }

  lemma {:induction false} LinkedFrom(payments: seq<Payment>, allocations: seq<PaymentAllocation>,
                                      invoices: seq<Invoice>)
    requires AllocationsOk(payments, allocations, invoices)
    requires PaidIsAllocated(allocations, invoices)
    requires NoneOverspent(payments, allocations)
    ensures Linked(payments, allocations, invoices)
  {
  }

  lemma {:induction false} AllocationsExtend(payments: seq<Payment>, allocations: seq<PaymentAllocation>,
                                             invoices: seq<Invoice>,
                          more: seq<Payment>, added: seq<PaymentAllocation>, after: seq<Invoice>)
    requires AllocationsOk(payments, allocations, invoices)
    requires Extends(payments, more, added, invoices, after)
    ensures AllocationsOk(payments + more, allocations + added, after)
  {
    hide AllocatedTo, AllocatedFrom;
    var all, paid := allocations + added, payments + more;
    forall k | 0 <= k < |all| ensures AllocationOk(all[k], paid, after) {
      if k < |allocations| {
        assert AllocationOk(allocations[k], payments, invoices);
      } else {
        assert AllocationOk(added[k - |allocations|], paid, after);
      }
    }
  }

  lemma {:induction false} PaidExtends(payments: seq<Payment>, allocations: seq<PaymentAllocation>,
                                       invoices: seq<Invoice>,
                    more: seq<Payment>, added: seq<PaymentAllocation>, after: seq<Invoice>)
    requires AllocationsOk(payments, allocations, invoices) && PaidIsAllocated(allocations, invoices)
    requires Extends(payments, more, added, invoices, after)
    ensures PaidIsAllocated(allocations + added, after)
  {
    hide AllocatedTo, AllocatedFrom;
    forall i | 0 <= i < |after| ensures after[i].paid == AllocatedTo(allocations + added, i) {
      AllocatedConcat(allocations, added, i);
      if |invoices| <= i {
        forall k | 0 <= k < |allocations| ensures allocations[k].invoice != i {
          assert AllocationOk(allocations[k], payments, invoices);
        }
        NothingTo(allocations, i);
      }
    }
  }

  lemma {:induction false} SpentExtends(payments: seq<Payment>, allocations: seq<PaymentAllocation>,
                                        invoices: seq<Invoice>,
                     more: seq<Payment>, added: seq<PaymentAllocation>, after: seq<Invoice>)
    requires AllocationsOk(payments, allocations, invoices) && NoneOverspent(payments, allocations)
    requires Extends(payments, more, added, invoices, after)
    ensures NoneOverspent(payments + more, allocations + added)
  {
    hide AllocatedTo, AllocatedFrom;
    var all := payments + more;
    forall p | 0 <= p < |all| ensures 0 < all[p].amount && AllocatedFrom(allocations + added, p) <= all[p].amount {
      AllocatedConcat(allocations, added, p);
      if p < |payments| {
        NothingFrom(added, p);
      } else {
        forall k | 0 <= k < |allocations| ensures allocations[k].payment != p {
          assert AllocationOk(allocations[k], payments, invoices);
        }
        NothingFrom(allocations, p);
        assert all[p] == more[p - |payments|];
      }
    }
  }

  // --- The rows each path writes ------------------------------------------------------------

  function TenderPayments(customer: Option<Id>, tenders: seq<Tender>, today: Date): (r: seq<Payment>)
    ensures |r| == |tenders|
  {
    seq(|tenders|, i requires 0 <= i < |tenders| => Payment(customer, tenders[i].mode, tenders[i].amount, today))
  }

  /** One allocation per tender, payment rows starting at `p`. */
  function TenderAllocations(tenders: seq<Tender>, p: nat, invoice: nat): (r: seq<PaymentAllocation>)
    ensures |r| == |tenders|
  {
    seq(|tenders|, i requires 0 <= i < |tenders| => PaymentAllocation(p + i, invoice, tenders[i].amount))
  }

  function ReceiptRows(allocations: seq<InvoiceAllocation>, p: nat): (r: seq<PaymentAllocation>)
    ensures |r| == |allocations|
  {
    seq(|allocations|, i requires 0 <= i < |allocations| =>
      PaymentAllocation(p, allocations[i].invoice, allocations[i].amount))
  }

  lemma {:induction false} TenderRowsSum(customer: Option<Id>, tenders: seq<Tender>, today: Date, p: nat, invoice: nat)
    ensures Received(TenderPayments(customer, tenders, today)) == TenderTotal(tenders)
    ensures Allocated(TenderAllocations(tenders, p, invoice)) == TenderTotal(tenders)
    ensures AllocatedTo(TenderAllocations(tenders, p, invoice), invoice) == TenderTotal(tenders)
    ensures forall i :: 0 <= i < |tenders| ==>
              AllocatedFrom(TenderAllocations(tenders, p, invoice), p + i) == tenders[i].amount
  {
    if tenders != [] {
      var n := |tenders| - 1;
      TenderRowsSum(customer, tenders[..n], today, p, invoice);
      assert TenderPayments(customer, tenders, today)[..n] == TenderPayments(customer, tenders[..n], today);
      assert TenderAllocations(tenders, p, invoice)[..n] == TenderAllocations(tenders[..n], p, invoice);
      NothingFrom(TenderAllocations(tenders[..n], p, invoice), p + n);
    }
  }

  lemma {:induction false} ReceiptRowsSum(allocations: seq<InvoiceAllocation>, p: nat, i: nat)
    ensures Allocated(ReceiptRows(allocations, p)) == Amount(allocations)
    ensures AllocatedFrom(ReceiptRows(allocations, p), p) == Amount(allocations)
    ensures AllocatedTo(ReceiptRows(allocations, p), i) == To(allocations, i)
  {
    if allocations != [] {
      var n := |allocations| - 1;
      ReceiptRowsSum(allocations[..n], p, i);
      assert ReceiptRows(allocations, p)[..n] == ReceiptRows(allocations[..n], p);
    }
  }

  // --- The steps ----------------------------------------------------------------------------

  function SaleJournal(inv: Invoice, tenders: seq<Tender>): seq<JournalEntry> {
    if inv.grandTotal <= 0 then [] else [JournalEntry(inv.date, SaleLines(inv, tenders))]
  }

  function DispatchJournal(inv: Invoice): seq<JournalEntry> {
    if inv.grandTotal <= 0 then [] else [JournalEntry(inv.date, CreditSaleLines(inv))]
  }

  /** A finalized counter sale: the invoice, one payment and allocation per tender,
      and the journal. */
  function ApplySale(b: Books, inv: Invoice, tenders: seq<Tender>, today: Date): Books {
    b.(invoices := b.invoices + [inv],
       payments := b.payments + TenderPayments(inv.customer, tenders, today),
       allocations := b.allocations + TenderAllocations(tenders, |b.payments|, |b.invoices|),
       journal := b.journal + SaleJournal(inv, tenders))
  }

  /** A dispatched order's invoice, shipped on credit. */
  function ApplyDispatch(b: Books, inv: Invoice): Books {
    b.(invoices := b.invoices + [inv], journal := b.journal + DispatchJournal(inv))
  }

  /** A receipt: oldest open invoices first, the rest an advance. */
  function ApplyReceipt(b: Books, customer: Id, amount: int, mode: PaymentMethod, paymentDate: Date,
                        today: Date): Books {
    var allocations := ReceiptAllocations(b.invoices, customer, amount);
    b.(payments := b.payments + [Payment(Some(customer), mode, amount, today)],
       invoices := Settled(b.invoices, allocations),
       allocations := b.allocations + ReceiptRows(allocations, |b.payments|),
       journal := b.journal + [JournalEntry(paymentDate, ReceiptLines(mode, amount))])
  }

  // --- They keep the books reconciled --------------------------------------------------------

  lemma {:induction false} SaleExtends(b: Books, inv: Invoice, tenders: seq<Tender>, today: Date)
    requires TendersOk(tenders) && inv.paid == TenderTotal(tenders)
    requires AllocationsOk(b.payments, b.allocations, b.invoices)
    ensures Extends(b.payments, TenderPayments(inv.customer, tenders, today),
                    TenderAllocations(tenders, |b.payments|, |b.invoices|), b.invoices, b.invoices + [inv])
  {
    var p, n := |b.payments|, |b.invoices|;
    var added := TenderAllocations(tenders, p, n);
    TenderRowsSum(inv.customer, tenders, today, p, n);
    hide AllocatedTo, AllocatedFrom;
    forall i | 0 <= i < n ensures AllocatedTo(added, i) == 0 {
      NothingTo(added, i);
    }
  }

  lemma {:induction false} ReceivableGrows(b: Books, after: Books, e: JournalEntry, receivable: int)
    requires ReceivableIs(b) && after.journal == b.journal + [e] && LineBalance(e.lines, AR) == receivable
    requires OutstandingTotal(after.invoices) - (Received(after.payments) - Allocated(after.allocations))
          == OutstandingTotal(b.invoices) - (Received(b.payments) - Allocated(b.allocations)) + receivable
    ensures ReceivableIs(after)
  {
    BalanceSnoc(b.journal, e, AR);
  }

  lemma {:induction false} JournalSnoc(journal: seq<JournalEntry>, e: JournalEntry)
    requires JournalOk(journal) && EntryOk(e.lines)
    ensures JournalOk(journal + [e])
  {
  }

  lemma {:induction false} InvoicesSnoc(invoices: seq<Invoice>, inv: Invoice)
    requires InvoicesOk(invoices) && InvoiceOk(inv)
    ensures InvoicesOk(invoices + [inv])
  {
  }

  /** An invoice a path may write: priced lines never tax nothing. */
  predicate Priced(inv: Invoice) {
    0 <= inv.subtotal && 0 <= inv.taxTotal && inv.grandTotal == inv.subtotal + inv.taxTotal
    && (inv.subtotal == 0 ==> inv.grandTotal == 0)
  }

  lemma {:induction false} SaleReconciles(b: Books, inv: Invoice, tenders: seq<Tender>, today: Date)
    requires Reconciled(b) && InvoiceOk(inv) && Priced(inv)
    requires TendersOk(tenders) && inv.paid == TenderTotal(tenders)
    ensures Reconciled(ApplySale(b, inv, tenders, today))
  {
    var after := ApplySale(b, inv, tenders, today);
    SaleLinked(b, inv, tenders, today);
    SaleReceivable(b, inv, tenders, today);
    hide ReceivableIs, Linked, InvoiceOk;
    InvoicesSnoc(b.invoices, inv);
    if 0 < inv.grandTotal {
      SaleJournalBalances(inv, tenders);
      JournalSnoc(b.journal, JournalEntry(inv.date, SaleLines(inv, tenders)));
    } else {
      assert b.journal + [] == b.journal;
    }
  }

  lemma {:induction false} SaleLinked(b: Books, inv: Invoice, tenders: seq<Tender>, today: Date)
    requires Linked(b.payments, b.allocations, b.invoices)
    requires TendersOk(tenders) && inv.paid == TenderTotal(tenders)
    ensures var after := ApplySale(b, inv, tenders, today);
            Linked(after.payments, after.allocations, after.invoices)
  {
    hide Extends, TenderPayments, TenderAllocations;
    SaleExtends(b, inv, tenders, today);
    LinkedExtends(b.payments, b.allocations, b.invoices, TenderPayments(inv.customer, tenders, today),
                  TenderAllocations(tenders, |b.payments|, |b.invoices|), b.invoices + [inv]);
  }

  lemma {:induction false} SaleReceivable(b: Books, inv: Invoice, tenders: seq<Tender>, today: Date)
    requires ReceivableIs(b) && InvoiceOk(inv) && Priced(inv)
    requires TendersOk(tenders) && inv.paid == TenderTotal(tenders)
    ensures ReceivableIs(ApplySale(b, inv, tenders, today))
  {
    var after := ApplySale(b, inv, tenders, today);
    hide OutstandingTotal, Received, Allocated, AccountBalance, TenderPayments, TenderAllocations, SaleLines,
         TenderTotal;
    OutstandingSnoc(b.invoices, inv);
    ReceivedConcat(b.payments, TenderPayments(inv.customer, tenders, today));
    AllocatedConcat(b.allocations, TenderAllocations(tenders, |b.payments|, |b.invoices|), 0);
    TenderRowsSum(inv.customer, tenders, today, |b.payments|, |b.invoices|);
    if 0 < inv.grandTotal {
      SaleJournalBalances(inv, tenders);
      ReceivableGrows(b, after, JournalEntry(inv.date, SaleLines(inv, tenders)), Outstanding(inv));
    } else {
      assert b.journal + [] == b.journal;
    }
  }

  lemma {:induction false} DispatchReconciles(b: Books, inv: Invoice)
    requires Reconciled(b) && InvoiceOk(inv) && Priced(inv) && inv.paid == 0
    ensures Reconciled(ApplyDispatch(b, inv))
  {
    DispatchLinked(b, inv);
    DispatchReceivable(b, inv);
    hide Linked, InvoiceOk, ReceivableIs, CreditSaleLines;
    InvoicesSnoc(b.invoices, inv);
    if 0 < inv.grandTotal {
      DispatchJournalBalances(inv);
      JournalSnoc(b.journal, JournalEntry(inv.date, CreditSaleLines(inv)));
    } else {
      assert b.journal + [] == b.journal;
    }
  }

  lemma {:induction false} DispatchLinked(b: Books, inv: Invoice)
    requires Linked(b.payments, b.allocations, b.invoices) && inv.paid == 0
    ensures Linked(b.payments, b.allocations, b.invoices + [inv])
  {
    assert b.payments + [] == b.payments && b.allocations + [] == b.allocations;
    assert TenderTotal([]) == 0;
    hide Linked;
    SaleLinked(b, inv, [], 0);
  }

  lemma {:induction false} DispatchReceivable(b: Books, inv: Invoice)
    requires ReceivableIs(b) && Priced(inv) && inv.paid == 0
    ensures ReceivableIs(ApplyDispatch(b, inv))
  {
    hide OutstandingTotal, Received, Allocated, AccountBalance, CreditSaleLines;
    OutstandingSnoc(b.invoices, inv);
    if 0 < inv.grandTotal {
      DispatchJournalBalances(inv);
      ReceivableGrows(b, ApplyDispatch(b, inv), JournalEntry(inv.date, CreditSaleLines(inv)), inv.grandTotal);
    } else {
      assert b.journal + [] == b.journal;
    }
  }

  // --- Receipts --------------------------------------------------------------------------------

  lemma {:induction false} SettledOutstanding(invoices: seq<Invoice>, allocations: seq<InvoiceAllocation>, n: nat)
    requires n <= |invoices|
    ensures OutstandingTotal(Settled(invoices, allocations)[..n])
         == OutstandingTotal(invoices[..n]) - AmountBelow(allocations, n)
  {
    if n == 0 {
      BelowNothing(allocations);
    } else {
      var after := Settled(invoices, allocations);
      SettledOutstanding(invoices, allocations, n - 1);
      assert after[..n][..n - 1] == after[..n - 1] && invoices[..n][..n - 1] == invoices[..n - 1];
      BelowStep(allocations, n - 1);
    }
  }

  /** What goes to the first `n` invoices. */
  function AmountBelow(allocations: seq<InvoiceAllocation>, n: nat): int {
    if allocations == [] then 0
    else
      var a := allocations[|allocations| - 1];
      AmountBelow(allocations[..|allocations| - 1], n) + if a.invoice < n then a.amount else 0
  }

  lemma {:induction false} BelowNothing(allocations: seq<InvoiceAllocation>)
    ensures AmountBelow(allocations, 0) == 0
  {
    if allocations != [] {
      BelowNothing(allocations[..|allocations| - 1]);
    }
  }

  lemma {:induction false} BelowStep(allocations: seq<InvoiceAllocation>, n: nat)
    ensures AmountBelow(allocations, n + 1) == AmountBelow(allocations, n) + To(allocations, n)
  {
    if allocations != [] {
      BelowStep(allocations[..|allocations| - 1], n);
    }
  }

  lemma {:induction false} BelowAll(allocations: seq<InvoiceAllocation>, n: nat)
    requires forall k :: 0 <= k < |allocations| ==> allocations[k].invoice < n
    ensures AmountBelow(allocations, n) == Amount(allocations)
  {
    if allocations != [] {
      BelowAll(allocations[..|allocations| - 1], n);
    }
  }

  lemma {:induction false} ReceiptOutstanding(invoices: seq<Invoice>, customer: Id, amount: nat)
    requires InvoicesOk(invoices)
    ensures var allocations := ReceiptAllocations(invoices, customer, amount);
            OutstandingTotal(Settled(invoices, allocations)) == OutstandingTotal(invoices) - Amount(allocations)
  {
    var allocations := ReceiptAllocations(invoices, customer, amount);
    ReceiptSettles(invoices, customer, amount);
    hide ReceiptAllocations, Settled, OutstandingTotal;
    SettledOutstanding(invoices, allocations, |invoices|);
    BelowAll(allocations, |invoices|);
    assert Settled(invoices, allocations)[..|invoices|] == Settled(invoices, allocations);
    assert invoices[..|invoices|] == invoices;
  }

  lemma {:induction false} ReceiptExtends(b: Books, customer: Id, amount: nat, mode: PaymentMethod, today: Date)
    requires InvoicesOk(b.invoices) && 0 < amount
    ensures var allocations := ReceiptAllocations(b.invoices, customer, amount);
            Extends(b.payments, [Payment(Some(customer), mode, amount, today)],
                    ReceiptRows(allocations, |b.payments|), b.invoices, Settled(b.invoices, allocations))
  {
    var allocations := ReceiptAllocations(b.invoices, customer, amount);
    var after := Settled(b.invoices, allocations);
    var p := |b.payments|;
    ReceiptSettles(b.invoices, customer, amount);
    ReceiptWithin(b.invoices, customer, amount);
    SettledOk(b.invoices, customer, allocations);
    SameCustomers(b.invoices, allocations);
    hide ReceiptAllocations, Settled, AllocatedTo, AllocatedFrom, To, Amount, InvoicesOk;
    forall i | 0 <= i < |after| ensures AllocatedTo(ReceiptRows(allocations, p), i) == To(allocations, i) {
      ReceiptRowsSum(allocations, p, i);
    }
    ReceiptRowsSum(allocations, p, 0);
    ReceiptRowsOk(b, customer, Payment(Some(customer), mode, amount, today), allocations, after);
  }

  lemma {:induction false} ReceiptRowsOk(b: Books, customer: Id, payment: Payment,
                                         allocations: seq<InvoiceAllocation>, after: seq<Invoice>)
    requires Settles(b.invoices, customer, allocations) && payment.customer == Some(customer)
    requires |after| == |b.invoices| && forall i :: 0 <= i < |after| ==> after[i].customer == b.invoices[i].customer
    ensures forall k :: 0 <= k < |allocations| ==>
              AllocationOk(ReceiptRows(allocations, |b.payments|)[k], b.payments + [payment], after)
  {
  }

  lemma {:induction false} ReceiptWithin(invoices: seq<Invoice>, customer: Id, amount: nat)
    requires InvoicesOk(invoices)
    ensures Amount(ReceiptAllocations(invoices, customer, amount)) <= amount
  {
    CustomerOrderIs(invoices, customer);
    hide AllocateFifo, OpenList, CustomerOrder, ReceiptAllocations, Amount, Owed;
    ReceiptIs(invoices, customer, amount);
    FifoTotal(amount, OpenList(invoices, CustomerOrder(invoices, customer)));
  }

  lemma {:induction false} ReceiptReconciles(b: Books, customer: Id, amount: int, mode: PaymentMethod,
                                             paymentDate: Date, today: Date)
    requires Reconciled(b) && 0 < amount
    ensures Reconciled(ApplyReceipt(b, customer, amount, mode, paymentDate, today))
  {
    var allocations := ReceiptAllocations(b.invoices, customer, amount);
    var entry := JournalEntry(paymentDate, ReceiptLines(mode, amount));
    ReceiptLinked(b, customer, amount, mode, today);
    ReceiptReceivable(b, customer, amount, mode, paymentDate, today);
    ReceiptSettles(b.invoices, customer, amount);
    hide ReceivableIs, Linked, InvoicesOk, ReceiptAllocations, Settled, Settles;
    SettledOk(b.invoices, customer, allocations);
    ReceiptJournalBalances(mode, amount);
    JournalSnoc(b.journal, entry);
  }

  lemma {:induction false} ReceiptLinked(b: Books, customer: Id, amount: nat, mode: PaymentMethod, today: Date)
    requires Linked(b.payments, b.allocations, b.invoices) && InvoicesOk(b.invoices) && 0 < amount
    ensures var allocations := ReceiptAllocations(b.invoices, customer, amount);
            Linked(b.payments + [Payment(Some(customer), mode, amount, today)],
                   b.allocations + ReceiptRows(allocations, |b.payments|), Settled(b.invoices, allocations))
  {
    hide *;
    var allocations := ReceiptAllocations(b.invoices, customer, amount);
    ReceiptExtends(b, customer, amount, mode, today);
    LinkedExtends(b.payments, b.allocations, b.invoices, [Payment(Some(customer), mode, amount, today)],
                  ReceiptRows(allocations, |b.payments|), Settled(b.invoices, allocations));
  }

  lemma {:induction false} ReceiptReceivable(b: Books, customer: Id, amount: int, mode: PaymentMethod,
                                             paymentDate: Date, today: Date)
    requires ReceivableIs(b) && InvoicesOk(b.invoices) && 0 < amount
    ensures ReceivableIs(ApplyReceipt(b, customer, amount, mode, paymentDate, today))
  {
    var allocations := ReceiptAllocations(b.invoices, customer, amount);
    var payment := Payment(Some(customer), mode, amount, today);
    assert Received([payment]) == amount by {
      assert [payment][..0] == [];
    }
    hide OutstandingTotal, Received, Allocated, AccountBalance, ReceiptAllocations, Settled, ReceiptRows,
         ReceiptLines, ReceivableIs;
    ReceiptOutstanding(b.invoices, customer, amount);
    ReceivedConcat(b.payments, [payment]);
    AllocatedConcat(b.allocations, ReceiptRows(allocations, |b.payments|), 0);
    ReceiptRowsSum(allocations, |b.payments|, 0);
    ReceiptJournalBalances(mode, amount);
    ReceivableGrows(b, ApplyReceipt(b, customer, amount, mode, paymentDate, today),
                    JournalEntry(paymentDate, ReceiptLines(mode, amount)), -amount);
  }

  /** How much of the receipts is an advance. */
  function Advances(b: Books): int { Received(b.payments) - Allocated(b.allocations) }

  /** Two receipts leave every invoice, the total advance and the receivable as one
      receipt of both amounts does, however each was tendered. */
  lemma {:induction false} ReceiptThenReceipt(b: Books, customer: Id, a1: nat, a2: nat, m1: PaymentMethod,
                                              m2: PaymentMethod, m: PaymentMethod, date: Date, today: Date)
    requires Reconciled(b) && 0 < a1 && 0 < a2
    ensures var twice := ApplyReceipt(ApplyReceipt(b, customer, a1, m1, date, today), customer, a2, m2, date, today);
            var once := ApplyReceipt(b, customer, a1 + a2, m, date, today);
            && twice.invoices == once.invoices
            && Advances(twice) == Advances(once)
            && AccountBalance(twice.journal, AR) == AccountBalance(once.journal, AR)
  {
    hide *;
    var first := ApplyReceipt(b, customer, a1, m1, date, today);
    ReceiptChange(b, customer, a1, m1, date, today);
    ReceiptChange(first, customer, a2, m2, date, today);
    ReceiptChange(b, customer, a1 + a2, m, date, today);
    ReconciledInvoices(b);
    ReceiptsCompose(b.invoices, customer, a1, a2);
  }

  lemma {:induction false} ReconciledInvoices(b: Books)
    requires Reconciled(b)
    ensures InvoicesOk(b.invoices)
  {
  }

  lemma {:induction false} ReceiptChange(b: Books, customer: Id, amount: nat, mode: PaymentMethod, date: Date,
                                         today: Date)
    requires 0 < amount
    ensures var after := ApplyReceipt(b, customer, amount, mode, date, today);
            var allocations := ReceiptAllocations(b.invoices, customer, amount);
            && after.invoices == Settled(b.invoices, allocations)
            && Advances(after) == Advances(b) + amount - Amount(allocations)
            && AccountBalance(after.journal, AR) == AccountBalance(b.journal, AR) - amount
  {
    var allocations := ReceiptAllocations(b.invoices, customer, amount);
    var payment := Payment(Some(customer), mode, amount, today);
    assert [payment][..0] == [];
    hide ReceiptAllocations, Settled, ReceiptRows, ReceiptLines, Allocated, AccountBalance;
    ReceivedConcat(b.payments, [payment]);
    AllocatedConcat(b.allocations, ReceiptRows(allocations, |b.payments|), 0);
    ReceiptRowsSum(allocations, |b.payments|, 0);
    ReceiptJournalBalances(mode, amount);
    BalanceSnoc(b.journal, JournalEntry(date, ReceiptLines(mode, amount)), AR);
  }
}
