/** backend/app/modules/sales/service.py: quoting a cart and finalizing a counter
    sale, statement by statement. */
module Sales {
  import opened Prelude
  import Fefo
  import opened Stock
  import opened StockLines
  import opened Fulfilment
  import opened Inventory
  import opened Documents
  import opened Persistence
  import opened Numbering
  import opened Registers
  import opened Idempotency
  import opened Accounting
  import opened Bookkeeping
  import opened JournalEffects
  import opened Catalogue
  import opened SaleRules

  datatype SalesError =
    | NoLines
    | UnknownProduct
    | UnknownBranch
    | UnknownCustomer
    | NumberTaken
    | BadCartLine
    | OutOfStock
    | Overpaid
    | WalkInCredit
    | CreditLimit
    | NotPosted
    | KeyTaken

  datatype QuoteLine = QuoteLine(
    product: Id,
    quantity: int,
    unitPrice: int,
    net: int,
    tax: int,
    total: int,
    available: int)

  datatype QuoteResult = QuoteResult(lines: seq<QuoteLine>, subtotal: int, taxTotal: int, grandTotal: int)

  datatype SaleResult = SaleResult(invoice: nat, grandTotal: int, paid: int, status: PaymentStatus, replayed: bool)

  /** One quoted line: its price, and what is sellable now. */
  ghost predicate Quotes(s: StockState, w: Id, products: map<Id, Product>, l: CartLine, asOf: Date, q: QuoteLine) {
    var price := PriceOf(products, l, Counter);
    && price.Some?
    && q == QuoteLine(l.product, l.quantity, price.value.unitPrice, price.value.net, price.value.tax, price.value.total,
                      UsableIn(s, Slot(w, l.product), asOf))
    && l.product in products
    && IsCharge(products[l.product], l, Counter, q.unitPrice, q.net, q.tax, q.total)
  }

  class SalesService {
    const db: Database
    const inventory: InventoryService
    const numbering: NumberingService
    const idempotency: IdempotencyService
    const accounting: AccountingService

    constructor (db: Database, repo: InventoryRepository)
      ensures this.db == db && inventory.repo == repo && Wired()
    {
      this.db := db;
      inventory := new InventoryService(repo);
      numbering := new NumberingService(db);
      idempotency := new IdempotencyService(db);
      accounting := new AccountingService(db);
    }

    ghost predicate Wired() {
      numbering.db == db && idempotency.db == db && accounting.db == db
    }

    /** Price a cart without moving stock. */
    method Quote(products: map<Id, Product>, warehouse: Id, lines: seq<CartLine>, asOf: Date)
      returns (r: Result<QuoteResult, SalesError>)
      ensures r.Ok? <==> CartOk(products, lines)
      ensures r.Ok? ==>
                && Totals(r.value.subtotal, r.value.taxTotal, r.value.grandTotal)
                   == CartTotals(products, lines, Counter)
                && Offers(inventory.repo.View(), warehouse, lines, asOf, r.value.lines)
                && forall i :: 0 <= i < |lines| ==>
                     Quotes(inventory.repo.View(), warehouse, products, lines[i], asOf, r.value.lines[i])
    {
      if exists i :: 0 <= i < |lines| && lines[i].product !in products {
        return Err(UnknownProduct);
      }
      hide PriceOf, UsableIn, Quotes;
      var out, t := [], Totals(0, 0, 0);
      assert lines[..0] == [];
      for i := 0 to |lines|
        invariant t == CartTotals(products, lines[..i], Counter)
        invariant |out| == i && CartOk(products, lines[..i])
        invariant forall k :: 0 <= k < i ==> Quotes(inventory.repo.View(), warehouse, products, lines[k], asOf, out[k])
      {
        var l := lines[i];
        var price := PriceOf(products, l, Counter);
        CartNext(products, lines, i, Counter);
        if price.None? {
          return Err(BadCartLine);
        }
        var available := inventory.Available(Slot(warehouse, l.product), asOf);
        var p := price.value;
        var quoted := QuoteLine(l.product, l.quantity, p.unitPrice, p.net, p.tax, p.total, available);
        IsQuote(inventory.repo.View(), warehouse, products, l, asOf, quoted);
        out := out + [quoted];
        t := Totals(t.subtotal + p.net, t.tax + p.tax, t.grand + p.total);
      }
      assert lines[..|lines|] == lines;
      QuotesOffer(inventory.repo.View(), warehouse, products, lines, asOf, out);
      r := Ok(QuoteResult(out, t.subtotal, t.tax, t.grand));
    }

    /** Price each line and deduct its stock, in order. */
    method IssueCart(products: map<Id, Product>, req: SaleRequest)
      returns (r: Result<Totals, SalesError>, ghost plans: seq<seq<Fefo.Allocation>>)
      requires inventory.repo.Valid() && Known(products, req.lines)
      modifies inventory.repo
      ensures inventory.repo.Valid()
      ensures r.Ok? <==> CartOk(products, req.lines)
                         && Enough(old(inventory.repo.View()), req.warehouse, LinesOf(req.lines), req.asOf)
      ensures r.Ok? ==>
                && r.value == CartTotals(products, req.lines, Counter)
                && IssueLinesOk(old(inventory.repo.View()), req.warehouse, LinesOf(req.lines), req.asOf, RetailSale,
                                plans)
                && inventory.repo.View()
                   == IssueLines(old(inventory.repo.View()), req.warehouse, LinesOf(req.lines), RetailSale, plans)
                && MovesOut(old(inventory.repo.ledger), inventory.repo.ledger, req.warehouse, RetailSale)
                && LinesLeft(old(inventory.repo.View()), inventory.repo.View(), req.warehouse, LinesOf(req.lines))
    {
      ghost var s, w, sl := inventory.repo.View(), req.warehouse, LinesOf(req.lines);
      var t := Totals(0, 0, 0);
      plans := [];
      IssuingNone(s, w, sl, req.asOf, RetailSale);
      assert req.lines[..0] == [];
      for i := 0 to |req.lines|
        invariant inventory.repo.Valid()
        invariant t == CartTotals(products, req.lines[..i], Counter) && CartOk(products, req.lines[..i])
        invariant Issuing(s, inventory.repo.View(), w, sl, i, req.asOf, RetailSale, plans)
      {
        var price := PriceOf(products, req.lines[i], Counter);
        CartNext(products, req.lines, i, Counter);
        if price.None? {
          return Err(BadCartLine), plans;
        }
        ghost var before := inventory.repo.View();
        var line := req.lines[i];
        var issued := inventory.IssueFefo(Slot(req.warehouse, line.product), line.quantity, RetailSale, req.asOf);
        if issued.Err? {
          Refused(products, req.lines, s, before, w, i, req.asOf, plans);
          return Err(OutOfStock), plans;
        }
        IssuingNext(s, before, w, sl, i, req.asOf, RetailSale, plans, issued.value);
        plans := plans + [issued.value];
        t := AddLine(t, price);
      }
      assert req.lines[..|req.lines|] == req.lines;
      IssuedMeansEnough(s, inventory.repo.View(), w, sl, req.asOf, RetailSale, plans);
      IssueLinesMoveOut(s, w, sl, req.asOf, RetailSale, plans);
      IssueTakesLines(s, w, sl, req.asOf, RetailSale, plans);
      r := Ok(t);
    }

    method EnforceCreditLimit(customers: map<Id, Customer>, customer: Id, unpaid: int) returns (allowed: bool)
      ensures allowed <==> CreditOk(db.invoices, customers, customer, unpaid)
    {
      if customer !in customers {
        return false;
      }
      var limit := customers[customer].creditLimit;
      if limit <= 0 {
        return true;
      }
      var outstanding := CustomerOutstanding(db.invoices, customer);
      allowed := outstanding + unpaid <= limit;
    }

    /** The three payment rules, in order. */
    method CheckPayment(customers: map<Id, Customer>, req: SaleRequest, grand: int) returns (r: Result<int, SalesError>)
      ensures r.Ok? <==> PaymentOk(db.invoices, customers, req, grand)
      ensures r.Ok? ==> r.value == TenderTotal(req.tenders)
    {
      var paid := TenderTotal(req.tenders);
      if grand < paid {
        return Err(Overpaid);
      }
      if req.customer.None? && paid < grand {
        return Err(WalkInCredit);
      }
      if req.customer.Some? && paid < grand {
        var allowed := EnforceCreditLimit(customers, req.customer.value, grand - paid);
        if !allowed {
          return Err(CreditLimit);
        }
      }
      r := Ok(paid);
    }

    /** A payment row and its allocation per tender. */
    method TakePayments(tenders: seq<Tender>, customer: Option<Id>, invoice: nat, today: Date)
      modifies db`payments, db`allocations
      ensures db.payments == old(db.payments) + TenderPayments(customer, tenders, today)
      ensures db.allocations == old(db.allocations) + TenderAllocations(tenders, |old(db.payments)|, invoice)
    {
      for i := 0 to |tenders|
        invariant db.payments == old(db.payments) + TenderPayments(customer, tenders[..i], today)
        invariant db.allocations == old(db.allocations) + TenderAllocations(tenders[..i], |old(db.payments)|, invoice)
      {
        var p := |db.payments|;
        var payment := Payment(customer, tenders[i].mode, tenders[i].amount, today);
        var allocation := PaymentAllocation(p, invoice, tenders[i].amount);
        assert TenderPayments(customer, tenders[..i + 1], today)
            == TenderPayments(customer, tenders[..i], today) + [payment];
        assert TenderAllocations(tenders[..i + 1], |old(db.payments)|, invoice)
            == TenderAllocations(tenders[..i], |old(db.payments)|, invoice) + [allocation];
        db.payments := db.payments + [payment];
        db.allocations := db.allocations + [allocation];
      }
      assert tenders[..|tenders|] == tenders;
    }

    /** Credit sales and tax, debit each tender and the unpaid part. */
    method PostSaleJournal(inv: Invoice, tenders: seq<Tender>) returns (ok: bool)
      requires Wired() && (0 < inv.grandTotal ==> Payable(inv, tenders))
      modifies db`journal
      ensures ok
      ensures db.journal == old(db.journal) + SaleJournal(inv, tenders)
      ensures PostsSale(old(db.journal), db.journal, inv, tenders)
    {
      SalePosts(db.journal, inv, tenders);
      hide PostsSale;
      if inv.grandTotal <= 0 {
        return true;
      }
      var lines := [JournalLine(SALES, 0, inv.subtotal)];
      if 0 < inv.taxTotal {
        lines := lines + [JournalLine(GST_OUTPUT, 0, inv.taxTotal)];
      }
      assert lines == [JournalLine(SALES, 0, inv.subtotal)] + TaxLines(inv);
      ghost var front := lines;
      for i := 0 to |tenders|
        invariant lines == front + TenderLines(tenders[..i])
      {
        assert tenders[..i + 1][..i] == tenders[..i];
        lines := lines + [JournalLine(TenderAccount(tenders[i].mode), tenders[i].amount, 0)];
      }
      assert tenders[..|tenders|] == tenders;
      var onCredit := Outstanding(inv);
      if 0 < onCredit {
        lines := lines + [JournalLine(AR, onCredit, 0)];
      }
      assert lines == SaleLines(inv, tenders);
      SaleJournalBalances(inv, tenders);
      var posted := accounting.Post(inv.date, lines);
      ok := posted.Ok?;
    }

    /** Take the number and insert the unfinished invoice row: its number must be
        unique on paper (uq_sales_invoice_no) and its branch and customer exist. */
    method Start(customers: map<Id, Customer>, req: SaleRequest) returns (r: Result<nat, SalesError>)
      requires Wired()
      modifies db`numbers, db`invoices
      ensures r.Ok? <==> CanIssue(old(db.View()), InvoiceScope(req))
                         && (req.customer.Some? ==> req.customer.value in customers)
      ensures r.Ok? ==> r.value == |old(db.invoices)| && db.View() == Started(old(db.View()), req)
    {
      hide Printed, Advanced;
      var number := numbering.NextNumber(InvoiceScope(req));
      if number.Err? || !KnownBranch(req.branch, db.codes) {
        return Err(SalesError.UnknownBranch);
      }
      if !Free(InvoiceRows(db.invoices), number.value) {
        return Err(NumberTaken);
      }
      if req.customer.Some? && req.customer.value !in customers {
        return Err(UnknownCustomer);
      }
      r := Ok(|db.invoices|);
      db.invoices := db.invoices + [Draft(req, number.value)];
    }

    /** Everything after stock has been deducted. */
    method Finalize(products: map<Id, Product>, customers: map<Id, Customer>, req: SaleRequest, id: nat, totals: Totals,
                    ghost b: Books)
      returns (r: Result<SaleResult, SalesError>)
      requires Wired() && TendersOk(req.tenders)
      requires totals == CartTotals(products, req.lines, Counter)
      requires db.View() == Started(b, req) && id == |b.invoices|
      requires req.key.Some? ==> req.key.value !in db.keys
      modifies db
      ensures r.Ok? <==> PaymentOk(b.invoices, customers, req, totals.grand)
      ensures r.Ok? ==> db.View() == ApplyRetailSale(b, products, req)
      ensures r.Ok? ==> r.value == ResultOf(SaleInvoice(b, products, req), id, false)
    {
      DraftOwesNothing(b.invoices, db.invoices[id], customers, req, totals.grand);
      var paid := CheckPayment(customers, req, totals.grand);
      if paid.Err? {
        return Err(paid.error);
      }
      TakePayments(req.tenders, req.customer, id, req.today);
      var status := DeriveStatus(paid.value, totals.grand);
      var inv := db.invoices[id].(subtotal := totals.subtotal, taxTotal := totals.tax, grandTotal := totals.grand,
                                  paid := paid.value, status := status);
      db.invoices := db.invoices[id := inv];
      assert db.invoices == b.invoices + [inv];
      SaleInvoiceOk(b, products, req);
      var posted := PostSaleJournal(inv, req.tenders);
      if req.key.Some? {
        var recorded := idempotency.Record(req.key.value, id);
      }
      r := Ok(ResultOf(inv, id, false));
    }

    /** Finalize a counter sale. A recorded key replays its invoice and changes
        nothing; otherwise the sale goes through exactly when it is SaleOk, and a
        refused one leaves no trace. */
    method CreateRetailInvoice(products: map<Id, Product>, customers: map<Id, Customer>, req: SaleRequest)
      returns (r: Result<SaleResult, SalesError>, ghost plans: seq<seq<Fefo.Allocation>>)
      requires Wired() && inventory.repo.Valid() && KeysOk(db.View()) && TendersOk(req.tenders)
      modifies db, inventory.repo
      ensures inventory.repo.Valid() && KeysOk(db.View())
      ensures var b, s := old(db.View()), old(inventory.repo.View());
              if req.lines != [] && req.key.Some? && req.key.value in b.keys then
                && r.Ok? && Reports(r.value, b.keys[req.key.value], b.invoices[b.keys[req.key.value]], true)
                && db.View() == b && inventory.repo.View() == s
              else if SaleOk(b, s, products, customers, req) then
                r.Ok? && IsSold(b, s, db.View(), inventory.repo.View(), products, req, r.value, plans)
              else r.Err? && db.View() == b && inventory.repo.View() == s
    {
      plans := [];
      if req.lines == [] {
        return Err(NoLines), plans;
      }
      if req.key.Some? {
        var existing := idempotency.Find(req.key.value);
        if existing.Some? {
          return Ok(ResultOf(db.invoices[existing.value], existing.value, true)), plans;
        }
      }
      if exists i :: 0 <= i < |req.lines| && req.lines[i].product !in products {
        return Err(UnknownProduct), plans;
      }
      r, plans := Sell(products, customers, req);
    }

    /** A sale that is no replay: the number and the draft, the stock, the payment and
        the journal, or nothing. */
    method Sell(products: map<Id, Product>, customers: map<Id, Customer>, req: SaleRequest)
      returns (r: Result<SaleResult, SalesError>, ghost plans: seq<seq<Fefo.Allocation>>)
      requires Wired() && inventory.repo.Valid() && KeysOk(db.View()) && TendersOk(req.tenders)
      requires req.lines != [] && Known(products, req.lines) && (req.key.Some? ==> req.key.value !in db.keys)
      modifies db, inventory.repo
      ensures inventory.repo.Valid() && KeysOk(db.View())
      ensures r.Ok? <==> SaleOk(old(db.View()), old(inventory.repo.View()), products, customers, req)
      ensures r.Ok? ==> IsSold(old(db.View()), old(inventory.repo.View()), db.View(), inventory.repo.View(), products,
                               req, r.value, plans)
      ensures r.Err? ==> db.View() == old(db.View()) && inventory.repo.View() == old(inventory.repo.View())
    {
      plans := [];
      var b, s := db.View(), inventory.repo.View();
      SaleKeepsKeys(b, products, req);
      hide KeysOk, InventoryRepository.Valid, CanIssue, Advanced, NextOf, Reports, CartOk, Enough, PaymentOk;
      var id := Start(customers, req);
      if id.Err? {
        db.Rollback(b);
        return Err(id.error), plans;
      }
      var totals;
      totals, plans := IssueCart(products, req);
      if totals.Err? {
        db.Rollback(b);
        inventory.repo.Rollback(s);
        return Err(totals.error), plans;
      }
      SaleWritten(b, products, req);
      hide SaleWrites, MovesOut, LinesLeft, SaleOk, ApplyRetailSale, SaleInvoice;
      r := Finalize(products, customers, req, id.value, totals.value, b);
      if r.Err? {
        db.Rollback(b);
        inventory.repo.Rollback(s);
      }
    }
  }

  /** All that an accepted sale changes and reports. */
  ghost predicate IsSold(b: Books, s: StockState, after: Books, left: StockState, products: map<Id, Product>,
                         req: SaleRequest, r: SaleResult, plans: seq<seq<Fefo.Allocation>>)
  {
    && |after.invoices| == |b.invoices| + 1
    && Reports(r, |b.invoices|, after.invoices[|b.invoices|], false)
    && after == ApplyRetailSale(b, products, req)
    && SaleWrites(b, after, products, req)
    && IssueLinesOk(s, req.warehouse, LinesOf(req.lines), req.asOf, RetailSale, plans)
    && left == IssueLines(s, req.warehouse, LinesOf(req.lines), RetailSale, plans)
    && MovesOut(s.ledger, left.ledger, req.warehouse, RetailSale)
    && LinesLeft(s, left, req.warehouse, LinesOf(req.lines))
  }

  /** One payment of the day and one allocation to the invoice per tender. */
  ghost predicate IsPaidBy(payments: seq<Payment>, allocations: seq<PaymentAllocation>, req: SaleRequest, p: nat,
                           invoice: nat)
  {
    && |payments| == |allocations| == |req.tenders|
    && forall k :: 0 <= k < |req.tenders| ==>
         var t := req.tenders[k];
         && payments[k] == Payment(req.customer, t.mode, t.amount, req.today)
         && allocations[k] == PaymentAllocation(p + k, invoice, t.amount)
  }

  lemma {:induction false} SaleIsPaid(b: Books, products: map<Id, Product>, req: SaleRequest)
    ensures var after := ApplyRetailSale(b, products, req);
            && |b.payments| <= |after.payments| && |b.allocations| <= |after.allocations|
            && IsPaidBy(after.payments[|b.payments|..], after.allocations[|b.allocations|..], req, |b.payments|,
                        |b.invoices|)
  {
    var after := ApplyRetailSale(b, products, req);
    assert after.payments[|b.payments|..] == TenderPayments(req.customer, req.tenders, req.today);
    assert after.allocations[|b.allocations|..] == TenderAllocations(req.tenders, |b.payments|, |b.invoices|);
  }

  /** What a sale adds, in the request's own terms: the invoice, its payments and its
      journal entry. */
  ghost predicate SaleWrites(b: Books, after: Books, products: map<Id, Product>, req: SaleRequest) {
    var p, a, n := |b.payments|, |b.allocations|, |b.invoices|;
    && |after.invoices| == n + 1 && p <= |after.payments| && a <= |after.allocations|
    && IsSaleOf(after.invoices[n], products, req)
    && IsPaidBy(after.payments[p..], after.allocations[a..], req, p, n)
    && PostsSale(b.journal, after.journal, after.invoices[n], req.tenders)
  }

  lemma {:induction false} SaleWritten(b: Books, products: map<Id, Product>, req: SaleRequest)
    requires CartOk(products, req.lines) && TendersOk(req.tenders)
    ensures TenderTotal(req.tenders) <= CartTotals(products, req.lines, Counter).grand ==>
              SaleWrites(b, ApplyRetailSale(b, products, req), products, req)
  {
    SaleIsCharged(b, products, req);
    SalePosted(b, products, req);
    SaleIsPaid(b, products, req);
    hide IsSaleOf, PostsSale, IsPaidBy, SaleInvoice, Advanced, CartTotals, TenderTotal;
  }

  /** What the caller is told about an invoice. */
  ghost predicate Reports(r: SaleResult, id: nat, inv: Invoice, replayed: bool) {
    && r.invoice == id && r.replayed == replayed
    && r.grandTotal == inv.grandTotal && r.paid == inv.paid && r.status == inv.status
  }

  lemma {:induction false} SalePosted(b: Books, products: map<Id, Product>, req: SaleRequest)
    requires TendersOk(req.tenders)
    ensures TenderTotal(req.tenders) <= CartTotals(products, req.lines, Counter).grand ==>
              PostsSale(b.journal, ApplyRetailSale(b, products, req).journal, SaleInvoice(b, products, req),
                        req.tenders)
  {
    if TenderTotal(req.tenders) <= CartTotals(products, req.lines, Counter).grand {
      SaleInvoiceOk(b, products, req);
      SalePosts(b.journal, SaleInvoice(b, products, req), req.tenders);
    }
  }

  lemma {:induction false} Refused(products: map<Id, Product>, lines: seq<CartLine>, s: StockState, t: StockState,
                                   w: Id, i: nat, asOf: Date,
                plans: seq<seq<Fefo.Allocation>>)
    requires Projected(s) && i < |lines| && Issuing(s, t, w, LinesOf(lines), i, asOf, RetailSale, plans)
    requires !(0 < lines[i].quantity <= UsableIn(t, Slot(w, lines[i].product), asOf))
    ensures CartOk(products, lines) ==> !Enough(s, w, LinesOf(lines), asOf)
  {
    if CartOk(products, lines) {
      CartPositive(products, lines);
      RefusedMeansShort(s, t, w, LinesOf(lines), i, asOf, RetailSale, plans);
    }
  }

  /** Every product's summed quantity is within what its quoted line offers. */
  predicate WithinQuote(lines: seq<CartLine>, quoted: seq<QuoteLine>)
    requires |lines| == |quoted|
  {
    forall i :: 0 <= i < |lines| ==> Demand(LinesOf(lines), lines[i].product) <= quoted[i].available
  }

  /** Each line offers what is sellable of its product now. */
  ghost predicate Offers(s: StockState, w: Id, lines: seq<CartLine>, asOf: Date, quoted: seq<QuoteLine>) {
    && |quoted| == |lines|
    && forall i :: 0 <= i < |lines| ==> quoted[i].available == UsableIn(s, Slot(w, lines[i].product), asOf)
  }

  lemma {:induction false} IsQuote(s: StockState, w: Id, products: map<Id, Product>, l: CartLine, asOf: Date,
                                   q: QuoteLine)
    requires PriceOf(products, l, Counter).Some?
    requires var p := PriceOf(products, l, Counter).value;
             q == QuoteLine(l.product, l.quantity, p.unitPrice, p.net, p.tax, p.total,
                            UsableIn(s, Slot(w, l.product), asOf))
    ensures Quotes(s, w, products, l, asOf, q)
  {
    LineIsCharged(products, l, Counter);
    PricedLineOk(products, l, Counter);
    hide PriceOf, IsCharge, UsableIn;
  }

  lemma {:induction false} QuotesOffer(s: StockState, w: Id, products: map<Id, Product>, lines: seq<CartLine>,
                                       asOf: Date, quoted: seq<QuoteLine>)
    requires |quoted| == |lines|
    requires forall i :: 0 <= i < |lines| ==> Quotes(s, w, products, lines[i], asOf, quoted[i])
    ensures Offers(s, w, lines, asOf, quoted)
  {
    hide PriceOf, IsCharge, UsableIn;
  }

  lemma {:induction false} QuoteIsEnough(s: StockState, w: Id, lines: seq<CartLine>, asOf: Date, quoted: seq<QuoteLine>)
    requires Offers(s, w, lines, asOf, quoted)
    ensures WithinQuote(lines, quoted) <==> Enough(s, w, LinesOf(lines), asOf)
  {
    hide UsableIn;
    if WithinQuote(lines, quoted) {
      forall p ensures Demand(LinesOf(lines), p) <= UsableIn(s, Slot(w, p), asOf) {
        if i :| 0 <= i < |lines| && lines[i].product == p {
          assert Demand(LinesOf(lines), lines[i].product) <= quoted[i].available;
        } else {
          NoDemand(LinesOf(lines), p);
          UsableSane(s, Slot(w, p), asOf);
        }
      }
    }
  }

  /** A quoted cart finalizes, while products, stock and books stand still, exactly
      when its summed quantities are within the quoted availability, the payment suits
      the quoted total, the customer exists and the branch is not overtaken by another
      that prints the same prefix; and the invoice shows the quoted figures. */
  lemma {:induction false} QuotedCartFinalizes(b: Books, s: StockState, products: map<Id, Product>,
                                               customers: map<Id, Customer>, req: SaleRequest, quote: QuoteResult)
    requires CartOk(products, req.lines) && req.lines != [] && NumbersOk(b)
    requires Totals(quote.subtotal, quote.taxTotal, quote.grandTotal) == CartTotals(products, req.lines, Counter)
    requires Offers(s, req.warehouse, req.lines, req.asOf, quote.lines)
    ensures SaleOk(b, s, products, customers, req)
            <==> && WithinQuote(req.lines, quote.lines) && PaymentOk(b.invoices, customers, req, quote.grandTotal)
                 && (req.customer.Some? ==> req.customer.value in customers)
                 && KnownBranch(req.branch, b.codes) && !Overtaken(b.numbers, b.codes, InvoiceScope(req))
    ensures var inv := SaleInvoice(b, products, req);
            inv.subtotal == quote.subtotal && inv.taxTotal == quote.taxTotal && inv.grandTotal == quote.grandTotal
  {
    QuoteIsEnough(s, req.warehouse, req.lines, req.asOf, quote.lines);
    IssuableExactly(b, InvoiceScope(req));
    hide Enough, WithinQuote, CartTotals, TenderTotal, CartOk, LinesOf, CanIssue, Overtaken, NumbersOk;
  }

  function Draft(req: SaleRequest, number: DocumentNumber): Invoice {
    Invoice(req.branch, number, req.customer, req.date, RetailChannel, 0, 0, 0, 0, Credit)
  }

  function Started(b: Books, req: SaleRequest): Books {
    b.(numbers := Advanced(b.numbers, b.codes, InvoiceScope(req)),
       invoices := b.invoices + [Draft(req, NextOf(b.numbers, b.codes, InvoiceScope(req)))])
  }

  function ResultOf(inv: Invoice, id: nat, replayed: bool): SaleResult {
    SaleResult(id, inv.grandTotal, inv.paid, inv.status, replayed)
  }

  /** The unfinished invoice row does not count against the customer. */
  lemma {:induction false} DraftOwesNothing(invoices: seq<Invoice>, draft: Invoice, customers: map<Id, Customer>,
                                            req: SaleRequest, grand: int)
    requires draft.grandTotal == 0 && draft.paid == 0
    ensures PaymentOk(invoices + [draft], customers, req, grand) <==> PaymentOk(invoices, customers, req, grand)
  {
    if req.customer.Some? {
      OutstandingOfSnoc(invoices, draft, req.customer.value);
    }
  }
}
