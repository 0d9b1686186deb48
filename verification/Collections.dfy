/** backend/app/modules/collections/service.py: receiving a customer payment. */
module Collections {
  import opened Prelude
  import opened Stock
  import opened Documents
  import opened Persistence
  import opened Accounting
  import opened Settlement
  import opened Bookkeeping
  import opened JournalEffects
  import opened Catalogue

  datatype CollectionError = AmountNotPositive | UnknownCustomer

  datatype CollectionResult = CollectionResult(payment: nat, allocatedTotal: int, unallocated: int, settled: seq<nat>)

  class CollectionsService {
    const db: Database
    const accounting: AccountingService

    constructor (db: Database)
      ensures this.db == db && Wired()
    {
      this.db := db;
      this.accounting := new AccountingService(db);
    }

    ghost predicate Wired() {
      accounting.db == db
    }

    /** The customer's not-PAID invoices, oldest first. */
    method OutstandingInvoices(customer: Id) returns (ids: seq<nat>)
      ensures ids
           == OpenIds(db.invoices, (CustomerOrderIs(db.invoices, customer); CustomerOrder(db.invoices, customer)))
      ensures forall k :: 0 <= k < |ids| ==> ids[k] < |db.invoices|
    {
      CustomerOrderIs(db.invoices, customer);
      ids := OpenIds(db.invoices, CustomerOrder(db.invoices, customer));
    }

    /** Money in: the oldest open invoices take what they owe, the rest is an
        advance, and the receivable falls by the whole amount. The payment row needs
        an existing customer. */
    method ReceivePayment(customers: map<Id, Customer>, customer: Id, amount: int, mode: PaymentMethod,
                          paymentDate: Date, today: Date)
      returns (r: Result<CollectionResult, CollectionError>)
      requires Wired() && Reconciled(db.View())
      modifies db
      ensures Reconciled(db.View())
      ensures r.Ok? <==> 0 < amount && customer in customers
      ensures r.Ok? ==>
                && db.View() == ApplyReceipt(old(db.View()), customer, amount, mode, paymentDate, today)
                && PostsReceipt(old(db.journal), db.journal, mode, amount, paymentDate)
                && IsCollection(old(db.View()), db.View(), customer, amount, mode, today, r.value)
      ensures r.Err? ==> db.View() == old(db.View())
    {
      if amount <= 0 {
        return Err(AmountNotPositive);
      }
      if customer !in customers {
        return Err(UnknownCustomer);
      }
      var result := Receive(customer, amount, mode, paymentDate, today);
      ReceiptReconciles(old(db.View()), customer, amount, mode, paymentDate, today);
      ReceiptPosts(old(db.journal), mode, amount, paymentDate);
      hide PostsReceipt, ReceiptLines, Reconciled;
      r := Ok(result);
    }

    method Receive(customer: Id, amount: nat, mode: PaymentMethod, paymentDate: Date, today: Date)
      returns (r: CollectionResult)
      requires Wired() && InvoicesOk(db.invoices) && 0 < amount
      modifies db
      ensures db.View() == ApplyReceipt(old(db.View()), customer, amount, mode, paymentDate, today)
      ensures IsCollection(old(db.View()), db.View(), customer, amount, mode, today, r)
    {
      hide ReceiptAllocations, Settled, Settles, ReceiptRows, AllocateFifo, OpenList, OpenIds, CustomerOrder,
           Owed, CustomerOutstanding, EntryOk, InvoicesOk, ReceiptLines, Amount, Min, NewlyPaid;
      var p := |db.payments|;
      db.payments := db.payments + [Payment(Some(customer), mode, amount, today)];
      var ids := OutstandingInvoices(customer);
      var result := AllocatePayment(amount, OpenList(db.invoices, ids));
      var allocations := result.value.allocations;
      ReceiptResult(db.invoices, customer, amount, ids);
      ReceiptSettles(db.invoices, customer, amount);
      var settled := SettleInvoices(allocations, p, customer);
      ReceiptJournalBalances(mode, amount);
      var posted := accounting.Post(paymentDate, ReceiptLines(mode, amount));
      r := CollectionResult(p, result.value.allocatedTotal, result.value.unallocated, settled);
    }

    /** The loop over the allocations. */
    method SettleInvoices(allocations: seq<InvoiceAllocation>, p: nat, ghost customer: Id) returns (settled: seq<nat>)
      requires InvoicesOk(db.invoices) && Settles(db.invoices, customer, allocations)
      modifies db`invoices, db`allocations
      ensures db.invoices == Settled(old(db.invoices), allocations)
      ensures db.allocations == old(db.allocations) + ReceiptRows(allocations, p)
      ensures NewlyPaid(old(db.invoices), db.invoices, settled)
    {
      ghost var before := db.invoices;
      settled := [];
      SettledNothing(before);
      assert allocations[..0] == [];
      for k := 0 to |allocations|
        invariant db.invoices == Settled(before, allocations[..k])
        invariant db.allocations == old(db.allocations) + ReceiptRows(allocations[..k], p)
        invariant forall i :: i in settled <==>
                    exists j :: 0 <= j < k && allocations[j].invoice == i && db.invoices[i].status == Paid
      {
        var a := allocations[k];
        SettledSnoc(before, allocations, k, customer);
        var invoice := db.invoices[a.invoice];
        var paid := invoice.paid + a.amount;
        var status := if invoice.grandTotal <= paid then Paid else Partial;
        db.invoices := db.invoices[a.invoice := invoice.(paid := paid, status := status)];
        if status == Paid {
          settled := settled + [a.invoice];
        }
        assert ReceiptRows(allocations[..k + 1], p)
            == ReceiptRows(allocations[..k], p) + [PaymentAllocation(p, a.invoice, a.amount)];
        db.allocations := db.allocations + [PaymentAllocation(p, a.invoice, a.amount)];
      }
      assert allocations[..|allocations|] == allocations;
      SettledAreNew(before, customer, allocations);
    }

    /** What the collections screen shows as owed is what the credit checks count. */
    method CustomerLedgerBalance(customer: Id) returns (owed: int)
      ensures owed == CustomerOutstanding(db.invoices, customer)
    {
      var ids := OutstandingInvoices(customer);
      owed := SumOutstanding(db.invoices, ids);
      OpenIsOutstanding(db.invoices, customer);
    }
  }

  method SumOutstanding(invoices: seq<Invoice>, ids: seq<nat>) returns (total: int)
    requires forall k :: 0 <= k < |ids| ==> ids[k] < |invoices|
    ensures total == TotalOf(invoices, ids)
  {
    total := 0;
    for k := 0 to |ids|
      invariant total + TotalOf(invoices, ids[k..]) == TotalOf(invoices, ids)
    {
      assert ids[k..][1..] == ids[k + 1..];
      total := total + Outstanding(invoices[ids[k]]);
    }
  }

  lemma {:induction false} OpenIsOutstanding(invoices: seq<Invoice>, customer: Id)
    ensures (CustomerOrderIs(invoices, customer);
             TotalOf(invoices, OpenIds(invoices, CustomerOrder(invoices, customer)))
                 == CustomerOutstanding(invoices, customer))
  {
    CustomerOrderIs(invoices, customer);
    hide OpenIds, CustomerOrder, OpenTotal, CustomerOutstanding, TotalOf;
    OpenSum(invoices, CustomerOrder(invoices, customer));
    OrderSum(invoices, customer);
  }

  lemma {:induction false} SettledNothing(invoices: seq<Invoice>)
    ensures Settled(invoices, []) == invoices
  {
  }

  /** One more allocation changes one invoice that had received nothing. */
  lemma {:induction false} SettledSnoc(invoices: seq<Invoice>, allocations: seq<InvoiceAllocation>, k: nat,
                                       customer: Id)
    requires k < |allocations| && Settles(invoices, customer, allocations)
    ensures var a := allocations[k];
            var i := a.invoice;
            && i < |invoices| && Settled(invoices, allocations[..k])[i] == invoices[i]
            && Settled(invoices, allocations[..k + 1])
               == Settled(invoices, allocations[..k])[i := invoices[i].(
                    paid := invoices[i].paid + a.amount,
                    status := if invoices[i].grandTotal <= invoices[i].paid + a.amount then Paid else Partial)]
  {
    var front, a := allocations[..k], allocations[k];
    var both := allocations[..k + 1];
    assert both == front + [a] && both[..|both| - 1] == front;
    ToNothing(front, a.invoice);
  }

  // --- Totals owed over the query -------------------------------------------------------

  function TotalOf(invoices: seq<Invoice>, ids: seq<nat>): int
    requires forall k :: 0 <= k < |ids| ==> ids[k] < |invoices|
  {
    if ids == [] then 0 else Outstanding(invoices[ids[0]]) + TotalOf(invoices, ids[1..])
  }

  function OpenAmount(inv: Invoice): int {
    if inv.status == Paid then 0 else Outstanding(inv)
  }

  function OpenTotal(invoices: seq<Invoice>, ids: seq<nat>): int
    requires forall k :: 0 <= k < |ids| ==> ids[k] < |invoices|
  {
    if ids == [] then 0 else OpenTotal(invoices, ids[..|ids| - 1]) + OpenAmount(invoices[ids[|ids| - 1]])
  }

  lemma {:induction false} OpenTotalCons(invoices: seq<Invoice>, i: nat, ids: seq<nat>)
    requires i < |invoices| && forall k :: 0 <= k < |ids| ==> ids[k] < |invoices|
    ensures OpenTotal(invoices, [i] + ids) == OpenAmount(invoices[i]) + OpenTotal(invoices, ids)
  {
    if ids == [] {
      assert [i] + ids == [i];
      assert [i][..0] == [];
    } else {
      var n := |ids| - 1;
      OpenTotalCons(invoices, i, ids[..n]);
      assert ([i] + ids)[..n + 1] == [i] + ids[..n];
    }
  }

  lemma {:induction false} OpenSum(invoices: seq<Invoice>, ids: seq<nat>)
    requires forall k :: 0 <= k < |ids| ==> ids[k] < |invoices|
    ensures TotalOf(invoices, OpenIds(invoices, ids)) == OpenTotal(invoices, ids)
  {
    if ids != [] {
      var i, rest := ids[0], ids[1..];
      assert ids == [i] + rest;
      OpenSum(invoices, rest);
      OpenTotalCons(invoices, i, rest);
      ListCons(invoices, i, rest);
      assert ([i] + OpenIds(invoices, rest))[1..] == OpenIds(invoices, rest);
    }
  }

  lemma {:induction false} InsertSum(invoices: seq<Invoice>, ids: seq<nat>, n: nat)
    requires n < |invoices| && forall k :: 0 <= k < |ids| ==> ids[k] < |invoices|
    ensures OpenTotal(invoices, InsertByDate(invoices, ids, n)) == OpenTotal(invoices, ids) + OpenAmount(invoices[n])
  {
    if ids != [] && invoices[n].date < invoices[ids[|ids| - 1]].date {
      var front, last := ids[..|ids| - 1], ids[|ids| - 1];
      InsertSum(invoices, front, n);
      var r := InsertByDate(invoices, front, n);
      assert (r + [last])[..|r|] == r;
    } else {
      assert (ids + [n])[..|ids|] == ids;
    }
  }

  lemma {:induction false} OpenTotalPrefix(invoices: seq<Invoice>, n: nat, ids: seq<nat>)
    requires n <= |invoices| && forall k :: 0 <= k < |ids| ==> ids[k] < n
    ensures OpenTotal(invoices[..n], ids) == OpenTotal(invoices, ids)
  {
    if ids != [] {
      OpenTotalPrefix(invoices, n, ids[..|ids| - 1]);
    }
  }

  lemma {:induction false} OrderSum(invoices: seq<Invoice>, customer: Id)
    ensures (CustomerOrderIs(invoices, customer);
             OpenTotal(invoices, CustomerOrder(invoices, customer)) == CustomerOutstanding(invoices, customer))
  {
    CustomerOrderIs(invoices, customer);
    if invoices != [] {
      var n := |invoices| - 1;
      CustomerOrderIs(invoices[..n], customer);
      var ids := CustomerOrder(invoices[..n], customer);
      OrderSum(invoices[..n], customer);
      OpenTotalPrefix(invoices, n, ids);
      if invoices[n].customer == Some(customer) {
        InsertSum(invoices, ids, n);
      }
    }
  }

  /** Everything a settled-up list owes is what its open rows owe. */
  lemma {:induction false} OwedIsOpen(invoices: seq<Invoice>, ids: seq<nat>)
    requires InvoicesOk(invoices) && forall k :: 0 <= k < |ids| ==> ids[k] < |invoices|
    ensures Owed(OpenList(invoices, ids)) == OpenTotal(invoices, ids)
  {
    if ids != [] {
      var i, rest := ids[0], ids[1..];
      assert ids == [i] + rest;
      OwedIsOpen(invoices, rest);
      ListCons(invoices, i, rest);
      OwedCons(Entry(invoices, i), OpenList(invoices, rest));
      OpenTotalCons(invoices, i, rest);
      assert InvoiceOk(invoices[i]);
    }
  }

  /** A receipt settles as much as the customer owes, and no more. */
  lemma {:induction false} AllocatedIs(invoices: seq<Invoice>, customer: Id, amount: int)
    requires InvoicesOk(invoices) && 0 < amount
    ensures Amount(ReceiptAllocations(invoices, customer, amount))
         == Min(amount, CustomerOutstanding(invoices, customer))
  {
    CustomerOrderIs(invoices, customer);
    var ids := CustomerOrder(invoices, customer);
    hide AllocateFifo, OpenList, CustomerOrder, ReceiptAllocations, Amount, Owed, OpenTotal, CustomerOutstanding;
    ReceiptIs(invoices, customer, amount);
    FifoTotal(amount, OpenList(invoices, ids));
    OwedIsOpen(invoices, ids);
    OrderSum(invoices, customer);
  }

  lemma {:induction false} ReceiptResult(invoices: seq<Invoice>, customer: Id, amount: int, ids: seq<nat>)
    requires InvoicesOk(invoices) && 0 < amount
    requires (CustomerOrderIs(invoices, customer); ids == OpenIds(invoices, CustomerOrder(invoices, customer)))
    ensures forall k :: 0 <= k < |ids| ==> ids[k] < |invoices|
    ensures AllocateFifo(amount, OpenList(invoices, ids)) == ReceiptAllocations(invoices, customer, amount)
    ensures Min(amount, Owed(OpenList(invoices, ids))) == Min(amount, CustomerOutstanding(invoices, customer))
  {
    CustomerOrderIs(invoices, customer);
    AllocatedIs(invoices, customer, amount);
    hide AllocateFifo, OpenList, CustomerOrder, Amount, Owed, CustomerOutstanding;
    FifoTotal(amount, OpenList(invoices, ids));
  }

  /** The receipt is one payment of the day; it settles as much as the customer owed and
      the rest is unallocated. */
  ghost predicate IsCollection(before: Books, after: Books, customer: Id, amount: int, mode: PaymentMethod, today: Date,
                               r: CollectionResult)
  {
    && r.payment == |before.payments|
    && after.payments == before.payments + [Payment(Some(customer), mode, amount, today)]
    && r.allocatedTotal == Min(amount, CustomerOutstanding(before.invoices, customer))
    && r.unallocated == amount - r.allocatedTotal
    && NewlyPaid(before.invoices, after.invoices, r.settled)
  }

  /** `settled` lists exactly the invoices that turned PAID. */
  ghost predicate NewlyPaid(before: seq<Invoice>, after: seq<Invoice>, settled: seq<nat>) {
    && |before| == |after|
    && forall i :: i in settled <==> 0 <= i < |after| && after[i].status == Paid && before[i].status != Paid
  }

  lemma {:induction false} SettledAreNew(invoices: seq<Invoice>, customer: Id, allocations: seq<InvoiceAllocation>)
    requires InvoicesOk(invoices) && Settles(invoices, customer, allocations)
    ensures forall i :: 0 <= i < |invoices| ==>
              var after := Settled(invoices, allocations)[i];
              (after.status == Paid && invoices[i].status != Paid <==>
               exists k :: 0 <= k < |allocations| && allocations[k].invoice == i && after.status == Paid)
  {
    forall i | 0 <= i < |invoices|
      ensures var after := Settled(invoices, allocations)[i];
              (after.status == Paid && invoices[i].status != Paid <==>
               exists k :: 0 <= k < |allocations| && allocations[k].invoice == i && after.status == Paid)
    {
      assert InvoiceOk(invoices[i]);
      if k :| 0 <= k < |allocations| && allocations[k].invoice == i {
        ToIs(allocations, k);
      } else {
        ToNothing(allocations, i);
      }
    }
  }
}
