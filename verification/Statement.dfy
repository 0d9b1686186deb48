/** backend/app/modules/accounting/api.py, `customer_ledger`: a customer's
    statement, and what it closes at. */
module Statement {
  import opened Prelude
  import opened Stock
  import opened Documents
  import opened Persistence
  import Accounting

  datatype EventKind = InvoiceEvent | PaymentEvent

  /** `row` is the invoice or payment behind the event. */
  datatype Event = Event(date: Date, kind: EventKind, row: nat, debit: int, credit: int)

  datatype LedgerRow = LedgerRow(event: Event, runningBalance: int)

  datatype CustomerLedger = CustomerLedger(opening: int, rows: seq<LedgerRow>, closing: int)

  function InvoiceEvents(invoices: seq<Invoice>, customer: Id, dateFrom: Option<Date>,
                         dateTo: Option<Date>): seq<Event> {
    if invoices == [] then []
    else
      var n := |invoices| - 1;
      var inv := invoices[n];
      InvoiceEvents(invoices[..n], customer, dateFrom, dateTo)
      + if inv.customer == Some(customer) && Accounting.InRange(inv.date, dateFrom, dateTo)
        then [Event(inv.date, InvoiceEvent, n, inv.grandTotal, 0)] else []
  }

  function PaymentEvents(payments: seq<Payment>, customer: Id, dateFrom: Option<Date>,
                         dateTo: Option<Date>): seq<Event> {
    if payments == [] then []
    else
      var n := |payments| - 1;
      var pay := payments[n];
      PaymentEvents(payments[..n], customer, dateFrom, dateTo)
      + if pay.customer == Some(customer) && Accounting.InRange(pay.receivedOn, dateFrom, dateTo)
        then [Event(pay.receivedOn, PaymentEvent, n, 0, pay.amount)] else []
  }

  /** The sort key: date, then "invoice" before "payment". */
  predicate Before(a: Event, b: Event) {
    a.date < b.date || (a.date == b.date && a.kind.InvoiceEvent? && b.kind.PaymentEvent?)
  }

  function Insert(events: seq<Event>, x: Event): (s: seq<Event>)
    ensures multiset(s) == multiset(events) + multiset{x}
  {
    var n := |events| - 1;
    if events != [] && Before(x, events[n]) then
      assert events == events[..n] + [events[n]];
      Insert(events[..n], x) + [events[n]]
    else events + [x]
  }

  /** Python's stable sort. */
  function Sort(events: seq<Event>): (s: seq<Event>)
    ensures multiset(s) == multiset(events)
  {
    if events == [] then []
    else
      var n := |events| - 1;
      assert events == events[..n] + [events[n]];
      Insert(Sort(events[..n]), events[n])
  }

  ghost predicate Sorted(events: seq<Event>) {
    forall i, j :: 0 <= i < j < |events| ==> !Before(events[j], events[i])
  }

  lemma {:induction false} SortedSnoc(events: seq<Event>, last: Event)
    requires Sorted(events) && forall e :: e in events ==> !Before(last, e)
    ensures Sorted(events + [last])
  {
  }

  lemma {:induction false} SortedFront(events: seq<Event>)
    requires Sorted(events) && events != []
    ensures var front, last := events[..|events| - 1], events[|events| - 1];
            Sorted(front) && forall e :: e in front ==> !Before(last, e)
  {
  }

  lemma {:induction false} NetSnoc(events: seq<Event>, e: Event)
    ensures Net(events + [e]) == Net(events) + e.debit - e.credit
  {
    assert (events + [e])[..|events|] == events;
  }

  lemma {:induction false} InsertSorts(events: seq<Event>, x: Event)
    requires Sorted(events)
    ensures Sorted(Insert(events, x)) && Net(Insert(events, x)) == Net(events) + x.debit - x.credit
    ensures forall e :: e in Insert(events, x) <==> e in events || e == x
  {
    hide Sorted, Net;
    if events == [] {
      SortedSnoc(events, x);
      NetSnoc(events, x);
    } else {
      var front, last := events[..|events| - 1], events[|events| - 1];
      SortedFront(events);
      NetSnoc(front, last);
      assert events == front + [last];
      if Before(x, last) {
        InsertSorts(front, x);
        SortedSnoc(Insert(front, x), last);
        NetSnoc(Insert(front, x), last);
      } else {
        assert forall e :: e in front && !Before(last, e) ==> !Before(x, e);
        SortedSnoc(events, x);
        NetSnoc(events, x);
      }
    }
  }

  lemma {:induction false} SortSorts(events: seq<Event>)
    ensures Sorted(Sort(events)) && Net(Sort(events)) == Net(events)
  {
    if events != [] {
      SortSorts(events[..|events| - 1]);
      InsertSorts(Sort(events[..|events| - 1]), events[|events| - 1]);
    }
  }

  function Net(events: seq<Event>): int {
    if events == [] then 0
    else Net(events[..|events| - 1]) + events[|events| - 1].debit - events[|events| - 1].credit
  }

  function Invoiced(invoices: seq<Invoice>, customer: Id, dateFrom: Option<Date>, dateTo: Option<Date>): int {
    if invoices == [] then 0
    else
      var inv := invoices[|invoices| - 1];
      Invoiced(invoices[..|invoices| - 1], customer, dateFrom, dateTo)
      + if inv.customer == Some(customer) && Accounting.InRange(inv.date, dateFrom, dateTo) then inv.grandTotal else 0
  }

  function ReceivedFrom(payments: seq<Payment>, customer: Id, dateFrom: Option<Date>, dateTo: Option<Date>): int {
    if payments == [] then 0
    else
      var pay := payments[|payments| - 1];
      ReceivedFrom(payments[..|payments| - 1], customer, dateFrom, dateTo)
      + if pay.customer == Some(customer) && Accounting.InRange(pay.receivedOn, dateFrom, dateTo) then pay.amount else 0
  }

  lemma {:induction false} EventsNet(invoices: seq<Invoice>, payments: seq<Payment>, customer: Id,
                                     dateFrom: Option<Date>, dateTo: Option<Date>)
    ensures Net(InvoiceEvents(invoices, customer, dateFrom, dateTo)
                + PaymentEvents(payments, customer, dateFrom, dateTo))
         == Invoiced(invoices, customer, dateFrom, dateTo) - ReceivedFrom(payments, customer, dateFrom, dateTo)
    decreases |invoices| + |payments|
  {
    var front := InvoiceEvents(invoices, customer, dateFrom, dateTo);
    if payments != [] {
      var n := |payments| - 1;
      EventsNet(invoices, payments[..n], customer, dateFrom, dateTo);
      var rest := PaymentEvents(payments[..n], customer, dateFrom, dateTo);
      var last := Event(payments[n].receivedOn, PaymentEvent, n, 0, payments[n].amount);
      assert front + (rest + [last]) == (front + rest) + [last];
      assert ((front + rest) + [last])[..|front + rest|] == front + rest;
      assert rest + [] == rest;
    } else if invoices != [] {
      var n := |invoices| - 1;
      EventsNet(invoices[..n], [], customer, dateFrom, dateTo);
      var rest := InvoiceEvents(invoices[..n], customer, dateFrom, dateTo);
      var last := Event(invoices[n].date, InvoiceEvent, n, invoices[n].grandTotal, 0);
      assert (rest + [last])[..|rest|] == rest && rest + [] == rest;
      assert front + [] == front;
    }
  }

  /** Row by row, the balance is the opening one plus everything so far. */
  ghost predicate Running(opening: int, rows: seq<LedgerRow>, events: seq<Event>) {
    && |rows| == |events|
    && forall k :: 0 <= k < |rows| ==> rows[k] == LedgerRow(events[k], opening + Net(events[..k + 1]))
  }

  lemma {:induction false} RunningSnoc(opening: int, rows: seq<LedgerRow>, events: seq<Event>, e: Event)
    requires Running(opening, rows, events)
    ensures Running(opening, rows + [LedgerRow(e, opening + Net(events + [e]))], events + [e])
  {
    hide Net;
    var longer := events + [e];
    assert forall k :: 0 <= k < |rows| ==> longer[k] == events[k] && longer[..k + 1] == events[..k + 1];
    assert longer[..|longer|] == longer;
  }

  /** The fold over the sorted events. */
  method RunBalance(opening: int, events: seq<Event>) returns (rows: seq<LedgerRow>, balance: int)
    ensures Running(opening, rows, events)
    ensures balance == opening + Net(events)
  {
    hide Running, Net;
    balance, rows := opening, [];
    RunningNone(opening);
    assert events[..0] == [];
    for k := 0 to |events|
      invariant balance == opening + Net(events[..k])
      invariant Running(opening, rows, events[..k])
    {
      assert events[..k + 1] == events[..k] + [events[k]];
      NetSnoc(events[..k], events[k]);
      RunningSnoc(opening, rows, events[..k], events[k]);
      balance := balance + events[k].debit - events[k].credit;
      rows := rows + [LedgerRow(events[k], balance)];
    }
    assert events[..|events|] == events;
  }

  /** The customer's invoices and receipts in range, in some order. */
  ghost predicate IsHistory(db: Database, customer: Id, dateFrom: Option<Date>, dateTo: Option<Date>,
                            events: seq<Event>)
    reads db
  {
    multiset(events) == multiset(InvoiceEvents(db.invoices, customer, dateFrom, dateTo)
                                 + PaymentEvents(db.payments, customer, dateFrom, dateTo))
  }

  /** The entry an invoice of the customer makes, dated in the range. */
  ghost predicate ShowsInvoice(e: Event, invoices: seq<Invoice>, customer: Id, dateFrom: Option<Date>,
                               dateTo: Option<Date>)
  {
    && e.kind.InvoiceEvent? && e.row < |invoices|
    && invoices[e.row].customer == Some(customer)
    && (dateFrom.Some? ==> dateFrom.value <= invoices[e.row].date)
    && (dateTo.Some? ==> invoices[e.row].date <= dateTo.value)
    && e.date == invoices[e.row].date
    && e.debit == invoices[e.row].grandTotal && e.credit == 0
  }

  ghost predicate ShowsPayment(e: Event, payments: seq<Payment>, customer: Id, dateFrom: Option<Date>,
                               dateTo: Option<Date>)
  {
    && e.kind.PaymentEvent? && e.row < |payments|
    && payments[e.row].customer == Some(customer)
    && (dateFrom.Some? ==> dateFrom.value <= payments[e.row].receivedOn)
    && (dateTo.Some? ==> payments[e.row].receivedOn <= dateTo.value)
    && e.date == payments[e.row].receivedOn
    && e.debit == 0 && e.credit == payments[e.row].amount
  }

  /** Every invoice and receipt of the customer in the range once, and nothing else. */
  ghost predicate EachOnce(events: seq<Event>, invoices: seq<Invoice>, payments: seq<Payment>, customer: Id,
                           dateFrom: Option<Date>, dateTo: Option<Date>)
  {
    forall e :: multiset(events)[e] ==
      if ShowsInvoice(e, invoices, customer, dateFrom, dateTo) || ShowsPayment(e, payments, customer, dateFrom, dateTo)
      then 1 else 0
  }

  /** Dates never go back, and on one date invoices come before receipts. */
  ghost predicate Chronological(events: seq<Event>) {
    forall i, j :: 0 <= i < j < |events| ==>
      && events[i].date <= events[j].date
      && (events[i].date == events[j].date && events[i].kind.PaymentEvent? ==> events[j].kind.PaymentEvent?)
  }

  lemma {:induction false} SortedIsChronological(events: seq<Event>)
    ensures Sorted(events) <==> Chronological(events)
  {
  }

  lemma {:induction false} OneMore(events: seq<Event>, last: Event, e: Event)
    ensures multiset(events + [last])[e] == multiset(events)[e] + if e == last then 1 else 0
  {
  }

  lemma {:induction false} LastInvoice(e: Event, invoices: seq<Invoice>, customer: Id, dateFrom: Option<Date>,
                                       dateTo: Option<Date>)
    requires invoices != []
    ensures var n := |invoices| - 1;
            var last := Event(invoices[n].date, InvoiceEvent, n, invoices[n].grandTotal, 0);
            && !ShowsInvoice(last, invoices[..n], customer, dateFrom, dateTo)
            && (ShowsInvoice(e, invoices, customer, dateFrom, dateTo)
                <==> || ShowsInvoice(e, invoices[..n], customer, dateFrom, dateTo)
                     || (e == last
                         && invoices[n].customer == Some(customer)
                         && Accounting.InRange(invoices[n].date, dateFrom, dateTo)))
  {
    if e.row < |invoices| - 1 {
      assert invoices[..|invoices| - 1][e.row] == invoices[e.row];
    }
  }

  lemma {:induction false} InvoiceOnce(e: Event, invoices: seq<Invoice>, customer: Id, dateFrom: Option<Date>,
                                       dateTo: Option<Date>)
    ensures multiset(InvoiceEvents(invoices, customer, dateFrom, dateTo))[e]
         == if ShowsInvoice(e, invoices, customer, dateFrom, dateTo) then 1 else 0
  {
    if invoices != [] {
      hide ShowsInvoice, Accounting.InRange;
      var n := |invoices| - 1;
      InvoiceOnce(e, invoices[..n], customer, dateFrom, dateTo);
      var rest := InvoiceEvents(invoices[..n], customer, dateFrom, dateTo);
      assert rest + [] == rest;
      OneMore(rest, Event(invoices[n].date, InvoiceEvent, n, invoices[n].grandTotal, 0), e);
      LastInvoice(e, invoices, customer, dateFrom, dateTo);
    }
  }

  lemma {:induction false} LastPayment(e: Event, payments: seq<Payment>, customer: Id, dateFrom: Option<Date>,
                                       dateTo: Option<Date>)
    requires payments != []
    ensures var n := |payments| - 1;
            var last := Event(payments[n].receivedOn, PaymentEvent, n, 0, payments[n].amount);
            && !ShowsPayment(last, payments[..n], customer, dateFrom, dateTo)
            && (ShowsPayment(e, payments, customer, dateFrom, dateTo)
                <==> || ShowsPayment(e, payments[..n], customer, dateFrom, dateTo)
                     || (e == last
                         && payments[n].customer == Some(customer)
                         && Accounting.InRange(payments[n].receivedOn, dateFrom, dateTo)))
  {
    if e.row < |payments| - 1 {
      assert payments[..|payments| - 1][e.row] == payments[e.row];
    }
  }

  lemma {:induction false} PaymentOnce(e: Event, payments: seq<Payment>, customer: Id, dateFrom: Option<Date>,
                                       dateTo: Option<Date>)
    ensures multiset(PaymentEvents(payments, customer, dateFrom, dateTo))[e]
         == if ShowsPayment(e, payments, customer, dateFrom, dateTo) then 1 else 0
  {
    if payments != [] {
      hide ShowsPayment, Accounting.InRange;
      var n := |payments| - 1;
      PaymentOnce(e, payments[..n], customer, dateFrom, dateTo);
      var rest := PaymentEvents(payments[..n], customer, dateFrom, dateTo);
      assert rest + [] == rest;
      OneMore(rest, Event(payments[n].receivedOn, PaymentEvent, n, 0, payments[n].amount), e);
      LastPayment(e, payments, customer, dateFrom, dateTo);
    }
  }

  lemma {:induction false} OneKind(e: Event, invoices: seq<Invoice>, payments: seq<Payment>, customer: Id,
                                   dateFrom: Option<Date>, dateTo: Option<Date>)
    ensures ShowsInvoice(e, invoices, customer, dateFrom, dateTo) ==>
              !ShowsPayment(e, payments, customer, dateFrom, dateTo)
  {
  }

  lemma {:induction false} HistoryIs(events: seq<Event>, invoices: seq<Invoice>, payments: seq<Payment>, customer: Id,
                                     dateFrom: Option<Date>, dateTo: Option<Date>)
    requires multiset(events) == multiset(InvoiceEvents(invoices, customer, dateFrom, dateTo)
                                          + PaymentEvents(payments, customer, dateFrom, dateTo))
    ensures EachOnce(events, invoices, payments, customer, dateFrom, dateTo)
  {
    hide InvoiceEvents, PaymentEvents, ShowsInvoice, ShowsPayment;
    forall e
      ensures multiset(events)[e]
           == if || ShowsInvoice(e, invoices, customer, dateFrom, dateTo)
                 || ShowsPayment(e, payments, customer, dateFrom, dateTo) then 1 else 0
    {
      InvoiceOnce(e, invoices, customer, dateFrom, dateTo);
      PaymentOnce(e, payments, customer, dateFrom, dateTo);
      OneKind(e, invoices, payments, customer, dateFrom, dateTo);
    }
  }

  method GetCustomerLedger(db: Database, customer: Id, opening: int, dateFrom: Option<Date>, dateTo: Option<Date>)
    returns (r: CustomerLedger, ghost events: seq<Event>)
    ensures r.opening == opening
    ensures r.closing == opening + Invoiced(db.invoices, customer, dateFrom, dateTo)
                                 - ReceivedFrom(db.payments, customer, dateFrom, dateTo)
    ensures Running(opening, r.rows, events)
    ensures Sorted(events) && IsHistory(db, customer, dateFrom, dateTo, events)
    ensures Chronological(events)
    ensures EachOnce(events, db.invoices, db.payments, customer, dateFrom, dateTo)
  {
    var found := InvoiceEvents(db.invoices, customer, dateFrom, dateTo)
               + PaymentEvents(db.payments, customer, dateFrom, dateTo);
    var sorted := Sort(found);
    events := sorted;
    assert IsHistory(db, customer, dateFrom, dateTo, events);
    HistoryIs(events, db.invoices, db.payments, customer, dateFrom, dateTo);
    hide *;
    SortSorts(found);
    SortedIsChronological(sorted);
    EventsNet(db.invoices, db.payments, customer, dateFrom, dateTo);
    var rows, balance := RunBalance(opening, sorted);
    r := CustomerLedger(opening, rows, balance);
  }

  lemma {:induction false} RunningNone(opening: int)
    ensures Running(opening, [], []) && Net([]) == 0
  {
  }

  // --- What the unfiltered statement closes at --------------------------------------------

  function PaidOn(invoices: seq<Invoice>, customer: Id): int {
    if invoices == [] then 0
    else PaidOn(invoices[..|invoices| - 1], customer)
         + if invoices[|invoices| - 1].customer == Some(customer) then invoices[|invoices| - 1].paid else 0
  }

  /** Allocations to those of the first `n` invoices that are the customer's. */
  function ToCustomer(allocations: seq<PaymentAllocation>, invoices: seq<Invoice>, customer: Id, n: nat): int
    requires n <= |invoices|
  {
    if allocations == [] then 0
    else
      var a := allocations[|allocations| - 1];
      ToCustomer(allocations[..|allocations| - 1], invoices, customer, n)
      + if a.invoice < n && invoices[a.invoice].customer == Some(customer) then a.amount else 0
  }

  /** Allocations from those of the first `n` payments that are the customer's. */
  function FromCustomer(allocations: seq<PaymentAllocation>, payments: seq<Payment>, customer: Id, n: nat): int
    requires n <= |payments|
  {
    if allocations == [] then 0
    else
      var a := allocations[|allocations| - 1];
      FromCustomer(allocations[..|allocations| - 1], payments, customer, n)
      + if a.payment < n && payments[a.payment].customer == Some(customer) then a.amount else 0
  }

  lemma {:induction false} ToCustomerStep(allocations: seq<PaymentAllocation>, invoices: seq<Invoice>, customer: Id,
                                          n: nat)
    requires n < |invoices|
    ensures ToCustomer(allocations, invoices, customer, n + 1)
         == ToCustomer(allocations, invoices, customer, n)
            + if invoices[n].customer == Some(customer) then AllocatedTo(allocations, n) else 0
  {
    if allocations != [] {
      ToCustomerStep(allocations[..|allocations| - 1], invoices, customer, n);
    }
  }

  lemma {:induction false} FromCustomerStep(allocations: seq<PaymentAllocation>, payments: seq<Payment>, customer: Id,
                                            n: nat)
    requires n < |payments|
    ensures FromCustomer(allocations, payments, customer, n + 1)
         == FromCustomer(allocations, payments, customer, n)
            + if payments[n].customer == Some(customer) then AllocatedFrom(allocations, n) else 0
  {
    if allocations != [] {
      FromCustomerStep(allocations[..|allocations| - 1], payments, customer, n);
    }
  }

  lemma {:induction false} NoneOfThem(allocations: seq<PaymentAllocation>, payments: seq<Payment>,
                                      invoices: seq<Invoice>, customer: Id)
    ensures ToCustomer(allocations, invoices, customer, 0) == 0
    ensures FromCustomer(allocations, payments, customer, 0) == 0
  {
    if allocations != [] {
      NoneOfThem(allocations[..|allocations| - 1], payments, invoices, customer);
    }
  }

  lemma {:induction false} PaidByAllocations(allocations: seq<PaymentAllocation>, invoices: seq<Invoice>,
                                             customer: Id, n: nat)
    requires PaidIsAllocated(allocations, invoices) && n <= |invoices|
    ensures PaidOn(invoices[..n], customer) == ToCustomer(allocations, invoices, customer, n)
  {
    if n == 0 {
      NoneOfThem(allocations, [], invoices, customer);
    } else {
      PaidByAllocations(allocations, invoices, customer, n - 1);
      ToCustomerStep(allocations, invoices, customer, n - 1);
      assert invoices[..n][..n - 1] == invoices[..n - 1];
    }
  }

  lemma {:induction false} UnallocatedIs(payments: seq<Payment>, allocations: seq<PaymentAllocation>, customer: Id,
                                         n: nat)
    requires n <= |payments|
    ensures ReceivedFrom(payments[..n], customer, None, None)
         == CustomerUnallocated(payments, allocations, customer, n) + FromCustomer(allocations, payments, customer, n)
  {
    if n == 0 {
      NoneOfThem(allocations, payments, [], customer);
    } else {
      UnallocatedIs(payments, allocations, customer, n - 1);
      FromCustomerStep(allocations, payments, customer, n - 1);
      assert payments[..n][..n - 1] == payments[..n - 1];
    }
  }

  /** An allocation never crosses customers. */
  lemma {:induction false} SameAllocations(payments: seq<Payment>, allocations: seq<PaymentAllocation>,
                                           invoices: seq<Invoice>, customer: Id)
    requires AllocationsOk(payments, allocations, invoices)
    ensures ToCustomer(allocations, invoices, customer, |invoices|)
         == FromCustomer(allocations, payments, customer, |payments|)
  {
    if allocations != [] {
      var n := |allocations| - 1;
      assert AllocationOk(allocations[n], payments, invoices);
      SameAllocations(payments, allocations[..n], invoices, customer);
    }
  }

  lemma {:induction false} InvoicedIs(invoices: seq<Invoice>, customer: Id)
    ensures Invoiced(invoices, customer, None, None) == CustomerOwes(invoices, customer) + PaidOn(invoices, customer)
  {
    if invoices != [] {
      InvoicedIs(invoices[..|invoices| - 1], customer);
    }
  }

  /** A customer's unfiltered statement closes at the opening balance plus what the
      customer's invoices are owed less the customer's unapplied receipts. */
  lemma {:induction false} StatementCloses(b: Books, customer: Id, opening: int)
    requires Reconciled(b)
    ensures opening + Invoiced(b.invoices, customer, None, None) - ReceivedFrom(b.payments, customer, None, None)
         == opening + CustomerOutstanding(b.invoices, customer)
            - CustomerUnallocated(b.payments, b.allocations, customer, |b.payments|)
  {
    var invoices, payments, allocations := b.invoices, b.payments, b.allocations;
    InvoicedIs(invoices, customer);
    FilterLosesNothing(invoices, customer);
    SameAllocations(payments, allocations, invoices, customer);
    PaidByAllocations(allocations, invoices, customer, |invoices|);
    UnallocatedIs(payments, allocations, customer, |payments|);
    assert invoices[..|invoices|] == invoices && payments[..|payments|] == payments;
  }
}
