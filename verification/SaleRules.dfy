/** What a counter sale is, on values: when it is accepted, what it writes, and
    what that keeps (sales/service.py:168-440). */
module SaleRules {
  import opened Prelude
  import opened Stock
  import opened Fulfilment
  import opened Documents
  import opened Numbering
  import opened Registers
  import opened Bookkeeping
  import opened Catalogue

  datatype SaleRequest = SaleRequest(
    warehouse: Id,
    branch: Option<Id>,
    date: Date,
    lines: seq<CartLine>,
    tenders: seq<Tender>,
    customer: Option<Id>,
    key: Option<string>,
    asOf: Date,
    today: Date)

  function DeriveStatus(paid: int, total: int): PaymentStatus {
    if total <= paid && 0 < total then Paid
    else if 0 < paid then Partial
    else Credit
  }

  predicate CreditOk(invoices: seq<Invoice>, customers: map<Id, Customer>, customer: Id, unpaid: int) {
    && customer in customers
    && (customers[customer].creditLimit <= 0
        || CustomerOutstanding(invoices, customer) + unpaid <= customers[customer].creditLimit)
  }

  /** Never overpaid; a walk-in pays in full; a known customer's unpaid part fits
      the credit limit. */
  predicate PaymentOk(invoices: seq<Invoice>, customers: map<Id, Customer>, req: SaleRequest, grand: int) {
    var paid := TenderTotal(req.tenders);
    && paid <= grand
    && (paid < grand ==>
          req.customer.Some? && CreditOk(invoices, customers, req.customer.value, grand - paid))
  }

  /** The cart is priceable and in stock, the invoice's number is free, its branch
      and customer exist, and the payment suits the total. */
  ghost predicate SaleOk(b: Books, s: StockState, products: map<Id, Product>, customers: map<Id, Customer>,
                         req: SaleRequest) {
    && req.lines != []
    && CanIssue(b, InvoiceScope(req))
    && (req.customer.Some? ==> req.customer.value in customers)
    && CartOk(products, req.lines)
    && Enough(s, req.warehouse, LinesOf(req.lines), req.asOf)
    && PaymentOk(b.invoices, customers, req, CartTotals(products, req.lines, Counter).grand)
  }

  function InvoiceScope(req: SaleRequest): Scope { Scope(InvoiceDocument, req.branch) }

  function SaleInvoice(b: Books, products: map<Id, Product>, req: SaleRequest): Invoice {
    var t := CartTotals(products, req.lines, Counter);
    var paid := TenderTotal(req.tenders);
    Invoice(req.branch, NextOf(b.numbers, b.codes, InvoiceScope(req)), req.customer, req.date, RetailChannel,
            t.subtotal, t.tax, t.grand, paid, DeriveStatus(paid, t.grand))
  }

  function ApplyRetailSale(b: Books, products: map<Id, Product>, req: SaleRequest): Books {
    var inv := SaleInvoice(b, products, req);
    ApplySale(b, inv, req.tenders, req.today).(
      numbers := Advanced(b.numbers, b.codes, InvoiceScope(req)),
      keys := if req.key.Some? then b.keys[req.key.value := |b.invoices|] else b.keys)
  }

  /** Every key names an invoice that exists. */
  ghost predicate KeysOk(b: Books) {
    forall k :: k in b.keys ==> b.keys[k] < |b.invoices|
  }

  /** The invoice a sale writes obeys the table's rules. */
  lemma {:induction false} SaleInvoiceOk(b: Books, products: map<Id, Product>, req: SaleRequest)
    requires TendersOk(req.tenders)
    requires TenderTotal(req.tenders) <= CartTotals(products, req.lines, Counter).grand
    ensures var inv := SaleInvoice(b, products, req);
            InvoiceOk(inv) && Priced(inv) && inv.paid == TenderTotal(req.tenders)
    ensures var inv := SaleInvoice(b, products, req); 0 < inv.grandTotal ==> Payable(inv, req.tenders)
  {
    CartTotalsAddUp(products, req.lines, Counter);
    TenderLinesSum(req.tenders);
  }

  /** An accepted sale keeps the books reconciled. */
  lemma {:induction false} SaleKeepsBooks(b: Books, s: StockState, products: map<Id, Product>,
                                          customers: map<Id, Customer>, req: SaleRequest)
    requires Reconciled(b) && TendersOk(req.tenders) && SaleOk(b, s, products, customers, req)
    ensures Reconciled(ApplyRetailSale(b, products, req))
  {
    var inv := SaleInvoice(b, products, req);
    SaleInvoiceOk(b, products, req);
    hide Reconciled, InvoiceOk, Priced, Payable, TenderTotal, CartOk, Enough, CartTotals, TendersOk, SaleOk,
         NextOf, Advanced;
    SaleReconciles(b, inv, req.tenders, req.today);
    SameTables(ApplySale(b, inv, req.tenders, req.today), ApplyRetailSale(b, products, req));
  }

  /** The invoice in the request's and the rows' own terms. */
  ghost predicate IsSaleOf(inv: Invoice, products: map<Id, Product>, req: SaleRequest) {
    && inv.branch == req.branch && inv.customer == req.customer && inv.date == req.date && inv.channel == RetailChannel
    && IsCartCharge(products, req.lines, Counter, Totals(inv.subtotal, inv.taxTotal, inv.grandTotal))
    && inv.paid == TenderTotal(req.tenders)
    && inv.status == (if 0 < inv.grandTotal <= inv.paid then Paid else if 0 < inv.paid then Partial else Credit)
  }

  lemma {:induction false} SaleIsCharged(b: Books, products: map<Id, Product>, req: SaleRequest)
    requires CartOk(products, req.lines)
    ensures IsSaleOf(SaleInvoice(b, products, req), products, req)
  {
    CartIsCharged(products, req.lines, Counter);
    CartTotalsAddUp(products, req.lines, Counter);
    hide IsCartCharge, CartTotals, TenderTotal, CartOk;
  }

  lemma {:induction false} SaleKeepsKeys(b: Books, products: map<Id, Product>, req: SaleRequest)
    requires KeysOk(b)
    ensures KeysOk(ApplyRetailSale(b, products, req))
  {
  }

  // --- The credit limit -------------------------------------------------------------------

  lemma {:induction false} OutstandingOfSnoc(invoices: seq<Invoice>, inv: Invoice, customer: Id)
    ensures CustomerOutstanding(invoices + [inv], customer)
         == CustomerOutstanding(invoices, customer)
            + if inv.customer == Some(customer) && inv.status != Paid then Outstanding(inv) else 0
  {
    assert (invoices + [inv])[..|invoices|] == invoices;
  }

  /** A counter sale never takes a customer past a limit that was set: it checks
      what is owed already plus what this sale leaves unpaid. */
  lemma {:induction false} SaleKeepsLimit(b: Books, s: StockState, products: map<Id, Product>,
                                          customers: map<Id, Customer>, req: SaleRequest, customer: Id, limit: int)
    requires TendersOk(req.tenders) && SaleOk(b, s, products, customers, req)
    requires 0 < limit && (customer in customers ==> customers[customer].creditLimit == limit)
    requires CustomerOutstanding(b.invoices, customer) <= limit
    ensures CustomerOutstanding(ApplyRetailSale(b, products, req).invoices, customer) <= limit
  {
    var inv := SaleInvoice(b, products, req);
    SaleInvoiceOk(b, products, req);
    OutstandingOfSnoc(b.invoices, inv, customer);
  }

  /** What a customer may owe at most. */
  predicate WithinLimit(customers: map<Id, Customer>, customer: Id, owed: int) {
    && customer in customers
    && (customers[customer].creditLimit <= 0 || owed <= customers[customer].creditLimit)
  }

  /** The payment rules turn away exactly the sales that are overpaid, leave a walk-in
      owing, or would leave the customer owing more than the limit. */
  lemma {:induction false} PaymentOkExactly(b: Books, products: map<Id, Product>, customers: map<Id, Customer>,
                                            req: SaleRequest)
    requires TendersOk(req.tenders)
    ensures var grand, paid := CartTotals(products, req.lines, Counter).grand, TenderTotal(req.tenders);
            var after := ApplyRetailSale(b, products, req).invoices;
            PaymentOk(b.invoices, customers, req, grand)
            <==> || paid == grand
                 || (&& paid < grand && req.customer.Some?
                     && WithinLimit(customers, req.customer.value,
                                    CustomerOutstanding(after, req.customer.value)))
  {
    var inv := SaleInvoice(b, products, req);
    TenderLinesSum(req.tenders);
    hide CartTotals, TenderTotal, TendersOk, CustomerOutstanding, NextOf;
    if req.customer.Some? {
      OutstandingOfSnoc(b.invoices, inv, req.customer.value);
      SoldAppends(b, products, req);
    }
  }

  lemma {:induction false} SoldAppends(b: Books, products: map<Id, Product>, req: SaleRequest)
    ensures ApplyRetailSale(b, products, req).invoices == b.invoices + [SaleInvoice(b, products, req)]
  {
  }
}
