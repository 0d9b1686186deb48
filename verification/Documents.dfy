/** Orders, invoices, payments, allocations and journals as values
    (sales/models.py, sales/order_models.py, payments/models.py,
    accounting/models.py, service_jobs/models.py). A row's id is its position in its table; money is in
    whole paise. */
module Documents {
  import opened Prelude
  import opened Stock
  import Fefo

  type Date = Fefo.Date

  datatype PaymentStatus = Paid | Partial | Credit

  datatype SaleChannel = RetailChannel | WholesaleChannel

  datatype DocumentType = InvoiceDocument | OrderDocument | QuotationDocument | RepairDocument

  /** What a number sequence counts: one document type at one branch, or at none. */
  datatype Scope = Scope(document: DocumentType, branch: Option<Id>)

  /** A sequence row keeps the prefix it was created with. */
  datatype NumberSequence = NumberSequence(prefix: string, nextValue: nat)

  /** A document's number: the prefix and the value its sequence gave it. */
  datatype DocumentNumber = DocumentNumber(prefix: string, value: nat)

  datatype Invoice = Invoice(
    branch: Option<Id>,
    number: DocumentNumber,
    customer: Option<Id>,
    date: Date,
    channel: SaleChannel,
    subtotal: int,
    taxTotal: int,
    grandTotal: int,
    paid: int,
    status: PaymentStatus)

  datatype PaymentMethod = Cash | Upi | Card | BankTransfer | Cheque | CreditMethod | Advance

  datatype Payment = Payment(customer: Option<Id>, mode: PaymentMethod, amount: int, receivedOn: Date)

  datatype PaymentAllocation = PaymentAllocation(payment: nat, invoice: nat, amount: int)

  datatype OrderStatus = Quotation | Confirmed | PartiallyDispatched | Dispatched | Invoiced | Cancelled

  datatype OrderItem = OrderItem(
    product: Id,
    quantity: int,
    unitPrice: int,
    net: int,
    tax: int,
    total: int,
    reservedQuantity: int,
    dispatchedQuantity: int)

  datatype SalesOrder = SalesOrder(
    branch: Option<Id>,
    number: DocumentNumber,
    warehouse: Id,
    customer: Id,
    date: Date,
    status: OrderStatus,
    items: seq<OrderItem>,
    subtotal: int,
    taxTotal: int,
    grandTotal: int,
    invoice: Option<nat>)

  datatype RepairJob = RepairJob(
    branch: Option<Id>,
    number: DocumentNumber,
    warehouse: Id,
    underWarranty: bool,
    labourCharges: int,
    partsTotal: int,
    customerPayable: int,
    ready: bool)

  datatype RepairPart = RepairPart(job: nat, product: Id, quantity: int, unitPrice: int, returned: bool)

  datatype Account = CASH | BANK | UPI | CARD | AR | AP | SALES | GST_OUTPUT | GST_INPUT | PURCHASES

  datatype JournalLine = JournalLine(account: Account, debit: int, credit: int)

  datatype JournalEntry = JournalEntry(date: Date, lines: seq<JournalLine>)

  /** The tables of the organization, stock apart; `codes` are its branches. */
  datatype Books = Books(
    orders: seq<SalesOrder>,
    invoices: seq<Invoice>,
    payments: seq<Payment>,
    allocations: seq<PaymentAllocation>,
    journal: seq<JournalEntry>,
    jobs: seq<RepairJob>,
    parts: seq<RepairPart>,
    keys: map<string, nat>,
    numbers: map<Scope, NumberSequence>,
    codes: map<Id, string>)

  const EMPTY_BOOKS := Books([], [], [], [], [], [], [], map[], map[], map[])

  // --- Sums the reports and checks take ----------------------------------------------

  function Outstanding(inv: Invoice): int { inv.grandTotal - inv.paid }

  function OutstandingTotal(invoices: seq<Invoice>): int {
    if invoices == [] then 0
    else OutstandingTotal(invoices[..|invoices| - 1]) + Outstanding(invoices[|invoices| - 1])
  }

  /** The SQL sum both credit checks use: this customer's not-PAID invoices. */
  function CustomerOutstanding(invoices: seq<Invoice>, customer: Id): int {
    if invoices == [] then 0
    else
      var inv := invoices[|invoices| - 1];
      CustomerOutstanding(invoices[..|invoices| - 1], customer)
      + if inv.customer == Some(customer) && inv.status != Paid then Outstanding(inv) else 0
  }

  /** The same without the status filter. */
  function CustomerOwes(invoices: seq<Invoice>, customer: Id): int {
    if invoices == [] then 0
    else
      var inv := invoices[|invoices| - 1];
      CustomerOwes(invoices[..|invoices| - 1], customer)
      + if inv.customer == Some(customer) then Outstanding(inv) else 0
  }

  function Received(payments: seq<Payment>): int {
    if payments == [] then 0 else Received(payments[..|payments| - 1]) + payments[|payments| - 1].amount
  }

  function Allocated(allocations: seq<PaymentAllocation>): int {
    if allocations == [] then 0
    else Allocated(allocations[..|allocations| - 1]) + allocations[|allocations| - 1].amount
  }

  function AllocatedTo(allocations: seq<PaymentAllocation>, invoice: nat): int {
    if allocations == [] then 0
    else
      var a := allocations[|allocations| - 1];
      AllocatedTo(allocations[..|allocations| - 1], invoice) + if a.invoice == invoice then a.amount else 0
  }

  function AllocatedFrom(allocations: seq<PaymentAllocation>, payment: nat): int {
    if allocations == [] then 0
    else
      var a := allocations[|allocations| - 1];
      AllocatedFrom(allocations[..|allocations| - 1], payment) + if a.payment == payment then a.amount else 0
  }

  /** Sum over the first `n` payments of what no invoice took. */
  function Unallocated(payments: seq<Payment>, allocations: seq<PaymentAllocation>, n: nat): int
    requires n <= |payments|
  {
    if n == 0 then 0
    else Unallocated(payments, allocations, n - 1) + payments[n - 1].amount - AllocatedFrom(allocations, n - 1)
  }

  function CustomerUnallocated(payments: seq<Payment>, allocations: seq<PaymentAllocation>, customer: Id, n: nat): int
    requires n <= |payments|
  {
    if n == 0 then 0
    else
      CustomerUnallocated(payments, allocations, customer, n - 1)
      + if payments[n - 1].customer == Some(customer)
        then payments[n - 1].amount - AllocatedFrom(allocations, n - 1) else 0
  }

  function Debits(lines: seq<JournalLine>): int {
    if lines == [] then 0 else Debits(lines[..|lines| - 1]) + lines[|lines| - 1].debit
  }

  function Credits(lines: seq<JournalLine>): int {
    if lines == [] then 0 else Credits(lines[..|lines| - 1]) + lines[|lines| - 1].credit
  }

  /** Debit minus credit of one account over one entry's lines. */
  function LineBalance(lines: seq<JournalLine>, account: Account): int {
    if lines == [] then 0
    else
      var l := lines[|lines| - 1];
      LineBalance(lines[..|lines| - 1], account) + if l.account == account then l.debit - l.credit else 0
  }

  function AccountBalance(journal: seq<JournalEntry>, account: Account): int {
    if journal == [] then 0
    else AccountBalance(journal[..|journal| - 1], account) + LineBalance(journal[|journal| - 1].lines, account)
  }

  // --- The rules of the tables ---------------------------------------------------------

  /** `_derive_status` and the collection loop agree on this reading of a status. */
  predicate InvoiceOk(inv: Invoice) {
    && 0 <= inv.paid <= inv.grandTotal
    && 0 <= inv.subtotal && 0 <= inv.taxTotal && inv.grandTotal == inv.subtotal + inv.taxTotal
    && (inv.status == Paid <==> 0 < inv.grandTotal && inv.paid == inv.grandTotal)
    && (inv.status == Credit <==> inv.paid == 0)
  }

  /** Exactly one positive side (ck_jline_non_negative, ck_jline_one_side_only). */
  predicate LineOk(l: JournalLine) {
    0 <= l.debit && 0 <= l.credit && (l.debit == 0 <==> l.credit != 0)
  }

  predicate EntryOk(lines: seq<JournalLine>) {
    && 2 <= |lines|
    && (forall i :: 0 <= i < |lines| ==> LineOk(lines[i]))
    && Debits(lines) == Credits(lines) && Debits(lines) != 0
  }

  predicate AllocationOk(a: PaymentAllocation, payments: seq<Payment>, invoices: seq<Invoice>) {
    && 0 < a.amount && a.payment < |payments| && a.invoice < |invoices|
    && payments[a.payment].customer == invoices[a.invoice].customer
  }

  ghost predicate InvoicesOk(invoices: seq<Invoice>) {
    forall i :: 0 <= i < |invoices| ==> InvoiceOk(invoices[i])
  }

  ghost predicate JournalOk(journal: seq<JournalEntry>) {
    forall e :: 0 <= e < |journal| ==> EntryOk(journal[e].lines)
  }

  /** Every allocation joins a payment and an invoice of one customer. */
  ghost predicate AllocationsOk(payments: seq<Payment>, allocations: seq<PaymentAllocation>, invoices: seq<Invoice>) {
    forall k :: 0 <= k < |allocations| ==> AllocationOk(allocations[k], payments, invoices)
  }

  ghost predicate PaidIsAllocated(allocations: seq<PaymentAllocation>, invoices: seq<Invoice>) {
    forall i :: 0 <= i < |invoices| ==> invoices[i].paid == AllocatedTo(allocations, i)
  }

  ghost predicate NoneOverspent(payments: seq<Payment>, allocations: seq<PaymentAllocation>) {
    forall p :: 0 <= p < |payments| ==>
      0 < payments[p].amount && AllocatedFrom(allocations, p) <= payments[p].amount
  }

  ghost predicate Linked(payments: seq<Payment>, allocations: seq<PaymentAllocation>, invoices: seq<Invoice>) {
    && AllocationsOk(payments, allocations, invoices)
    && PaidIsAllocated(allocations, invoices)
    && NoneOverspent(payments, allocations)
  }

  /** The receivable account is what is owed less what is received but unapplied. */
  ghost predicate ReceivableIs(b: Books) {
    AccountBalance(b.journal, AR)
    == OutstandingTotal(b.invoices) - (Received(b.payments) - Allocated(b.allocations))
  }

  /** The books agree with the documents. */
  ghost predicate Reconciled(b: Books) {
    && InvoicesOk(b.invoices)
    && Linked(b.payments, b.allocations, b.invoices)
    && JournalOk(b.journal)
    && ReceivableIs(b)
  }

  // --- Consequences ----------------------------------------------------------------------

  lemma {:induction false} AllocationsBelow(payments: seq<Payment>, allocations: seq<PaymentAllocation>, n: nat)
    requires n <= |payments|
    ensures Unallocated(payments, allocations, n) == Received(payments[..n]) - AllocatedFromBelow(allocations, n)
  {
    if n == 0 {
      NoneBelow(allocations);
    } else {
      AllocationsBelow(payments, allocations, n - 1);
      FromBelowStep(allocations, n - 1);
      assert payments[..n][..n - 1] == payments[..n - 1];
    }
  }

  function AllocatedFromBelow(allocations: seq<PaymentAllocation>, n: nat): int {
    if allocations == [] then 0
    else
      var a := allocations[|allocations| - 1];
      AllocatedFromBelow(allocations[..|allocations| - 1], n) + if a.payment < n then a.amount else 0
  }

  lemma {:induction false} NoneBelow(allocations: seq<PaymentAllocation>)
    ensures AllocatedFromBelow(allocations, 0) == 0
  {
    if allocations != [] {
      NoneBelow(allocations[..|allocations| - 1]);
    }
  }

  lemma {:induction false} FromBelowStep(allocations: seq<PaymentAllocation>, n: nat)
    ensures AllocatedFromBelow(allocations, n + 1)
         == AllocatedFromBelow(allocations, n) + AllocatedFrom(allocations, n)
  {
    if allocations != [] {
      FromBelowStep(allocations[..|allocations| - 1], n);
    }
  }

  lemma {:induction false} AllBelow(allocations: seq<PaymentAllocation>, n: nat)
    requires forall k :: 0 <= k < |allocations| ==> allocations[k].payment < n
    ensures AllocatedFromBelow(allocations, n) == Allocated(allocations)
  {
    if allocations != [] {
      AllBelow(allocations[..|allocations| - 1], n);
    }
  }

  /** The receivable account is what the invoices are owed less what receipts
      have not yet been applied, receipt by receipt. */
  lemma {:induction false} ReceivableAgrees(b: Books)
    requires Reconciled(b)
    ensures AccountBalance(b.journal, AR)
         == OutstandingTotal(b.invoices) - Unallocated(b.payments, b.allocations, |b.payments|)
  {
    AllocationsBelow(b.payments, b.allocations, |b.payments|);
    AllBelow(b.allocations, |b.payments|);
    assert b.payments[..|b.payments|] == b.payments;
  }

  /** Only the money tables matter to reconciliation. */
  lemma {:induction false} SameTables(a: Books, b: Books)
    requires Reconciled(a) && a.invoices == b.invoices && a.payments == b.payments
    requires a.allocations == b.allocations && a.journal == b.journal
    ensures Reconciled(b)
  {
  }

  /** Filtering on not-PAID loses nothing: settled invoices owe nothing. */
  lemma {:induction false} FilterLosesNothing(invoices: seq<Invoice>, customer: Id)
    requires InvoicesOk(invoices)
    ensures CustomerOutstanding(invoices, customer) == CustomerOwes(invoices, customer)
    ensures 0 <= CustomerOwes(invoices, customer)
  {
    if invoices != [] {
      FilterLosesNothing(invoices[..|invoices| - 1], customer);
    }
  }
}
