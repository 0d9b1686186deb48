/** backend/app/modules/collections/allocation.py: FIFO settlement of open
    invoices, and what a receipt does to the invoice table. */
module Settlement {
  import opened Prelude
  import opened Stock
  import opened Documents

  datatype OutstandingInvoice = OutstandingInvoice(invoice: nat, outstanding: int)

  datatype InvoiceAllocation = InvoiceAllocation(invoice: nat, amount: int)

  datatype AllocationResult =
    AllocationResult(allocations: seq<InvoiceAllocation>, allocatedTotal: int, unallocated: int)

  /** Oldest first, never more than is owed. */
  function AllocateFifo(remaining: int, open: seq<OutstandingInvoice>): seq<InvoiceAllocation> {
    if remaining <= 0 || open == [] then []
    else if open[0].outstanding <= 0 then AllocateFifo(remaining, open[1..])
    else
      var take := Min(open[0].outstanding, remaining);
      [InvoiceAllocation(open[0].invoice, take)] + AllocateFifo(remaining - take, open[1..])
  }

  function Amount(allocations: seq<InvoiceAllocation>): int {
    if allocations == [] then 0
    else Amount(allocations[..|allocations| - 1]) + allocations[|allocations| - 1].amount
  }

  /** What the allocations give one invoice. */
  function To(allocations: seq<InvoiceAllocation>, invoice: nat): int {
    if allocations == [] then 0
    else
      To(allocations[..|allocations| - 1], invoice)
      + if allocations[|allocations| - 1].invoice == invoice then allocations[|allocations| - 1].amount else 0
  }

  /** Total still owed over a list, settled rows counting nothing. */
  function Owed(open: seq<OutstandingInvoice>): int {
    if open == [] then 0 else Owed(open[..|open| - 1]) + Max(0, open[|open| - 1].outstanding)
  }

  ghost predicate DistinctIds(open: seq<OutstandingInvoice>) {
    forall i, j :: 0 <= i < j < |open| ==> open[i].invoice != open[j].invoice
  }

  lemma {:induction false} OwedCons(x: OutstandingInvoice, open: seq<OutstandingInvoice>)
    ensures Owed([x] + open) == Max(0, x.outstanding) + Owed(open)
  {
    if open == [] {
      assert [x] + open == [x];
    } else {
      var n := |open| - 1;
      OwedCons(x, open[..n]);
      assert ([x] + open)[..n + 1] == [x] + open[..n];
    }
  }

  lemma {:induction false} AmountCons(a: InvoiceAllocation, allocations: seq<InvoiceAllocation>)
    ensures Amount([a] + allocations) == a.amount + Amount(allocations)
  {
    if allocations == [] {
      assert [a] + allocations == [a];
    } else {
      var n := |allocations| - 1;
      AmountCons(a, allocations[..n]);
      assert ([a] + allocations)[..n + 1] == [a] + allocations[..n];
    }
  }

  lemma {:induction false} ToCons(a: InvoiceAllocation, allocations: seq<InvoiceAllocation>, i: nat)
    ensures To([a] + allocations, i) == (if a.invoice == i then a.amount else 0) + To(allocations, i)
  {
    if allocations == [] {
      assert [a] + allocations == [a];
    } else {
      var n := |allocations| - 1;
      ToCons(a, allocations[..n], i);
      assert ([a] + allocations)[..n + 1] == [a] + allocations[..n];
    }
  }

  lemma {:induction false} FifoTotal(remaining: int, open: seq<OutstandingInvoice>)
    ensures Amount(AllocateFifo(remaining, open)) == Max(0, Min(remaining, Owed(open)))
    ensures 0 <= Owed(open)
    decreases |open|
  {
    if open != [] {
      var x, rest := open[0], open[1..];
      assert open == [x] + rest;
      OwedCons(x, rest);
      if x.outstanding <= 0 {
        FifoTotal(remaining, rest);
      } else {
        var take := Min(x.outstanding, remaining);
        FifoTotal(remaining - take, rest);
        AmountCons(InvoiceAllocation(x.invoice, take), AllocateFifo(remaining - take, rest));
      }
    }
  }

  method AllocatePayment(amount: int, invoices: seq<OutstandingInvoice>) returns (r: Option<AllocationResult>)
    ensures r.None? <==> amount <= 0
    ensures r.Some? ==>
              && r.value.allocations == AllocateFifo(amount, invoices)
              && r.value.allocatedTotal == Min(amount, Owed(invoices))
              && r.value.allocatedTotal + r.value.unallocated == amount
  {
    if amount <= 0 {
      return None;
    }
    var remaining := amount;
    var allocations := [];
    var i := 0;
    while i < |invoices| && 0 < remaining
      invariant 0 <= i <= |invoices| && 0 <= remaining
      invariant allocations + AllocateFifo(remaining, invoices[i..]) == AllocateFifo(amount, invoices)
      invariant Amount(allocations) + remaining == amount
    {
      assert invoices[i..][1..] == invoices[i + 1..];
      if 0 < invoices[i].outstanding {
        var take := Min(invoices[i].outstanding, remaining);
        var a := InvoiceAllocation(invoices[i].invoice, take);
        assert (allocations + [a])[..|allocations|] == allocations;
        allocations := allocations + [a];
        remaining := remaining - take;
      }
      i := i + 1;
    }
    assert allocations == AllocateFifo(amount, invoices);
    FifoTotal(amount, invoices);
    r := Some(AllocationResult(allocations, Amount(allocations), remaining));
  }

  // --- Cumulative settlement -----------------------------------------------------------

  /** What the allocations give the invoices of a list together. */
  function ToAll(allocations: seq<InvoiceAllocation>, open: seq<OutstandingInvoice>): int {
    if open == [] then 0
    else ToAll(allocations, open[..|open| - 1]) + To(allocations, open[|open| - 1].invoice)
  }

  lemma {:induction false} FifoOnly(remaining: int, open: seq<OutstandingInvoice>, i: nat)
    requires forall j :: 0 <= j < |open| ==> open[j].invoice != i
    ensures To(AllocateFifo(remaining, open), i) == 0
  {
    if 0 < remaining && open != [] {
      if open[0].outstanding <= 0 {
        FifoOnly(remaining, open[1..], i);
      } else {
        var take := Min(open[0].outstanding, remaining);
        FifoOnly(remaining - take, open[1..], i);
        ToCons(InvoiceAllocation(open[0].invoice, take), AllocateFifo(remaining - take, open[1..]), i);
      }
    }
  }

  /** One step of the walk, seen from any invoice. */
  lemma {:induction false} FifoStep(remaining: int, x: OutstandingInvoice, rest: seq<OutstandingInvoice>, i: nat)
    requires 0 <= remaining
    ensures var take := Max(0, Min(x.outstanding, remaining));
            To(AllocateFifo(remaining, [x] + rest), i) ==
            (if x.invoice == i then take else 0) + To(AllocateFifo(remaining - take, rest), i)
  {
    assert ([x] + rest)[1..] == rest;
    if 0 < remaining && 0 < x.outstanding {
      var take := Min(x.outstanding, remaining);
      ToCons(InvoiceAllocation(x.invoice, take), AllocateFifo(remaining - take, rest), i);
    }
  }

  /** However much is received, the first `k` open invoices together get the
      amount or everything they owe, whichever is less. */
  lemma {:induction false} CumulativeSettlement(remaining: nat, open: seq<OutstandingInvoice>, k: nat)
    requires DistinctIds(open) && k <= |open|
    ensures ToAll(AllocateFifo(remaining, open), open[..k]) == Min(remaining, Owed(open[..k]))
  {
    if k != 0 {
      var x, rest := open[0], open[1..];
      assert open == [x] + rest && open[..k] == [x] + rest[..k - 1];
      CumulativeSettlement(remaining - Max(0, Min(x.outstanding, remaining)), rest, k - 1);
      assert forall j :: 0 <= j < |rest| ==> rest[j] == open[j + 1];
      CumulativeStep(remaining, x, rest, rest[..k - 1]);
    }
  }

  lemma {:induction false} CumulativeStep(remaining: nat, x: OutstandingInvoice, rest: seq<OutstandingInvoice>,
                                          front: seq<OutstandingInvoice>)
    requires forall j :: 0 <= j < |rest| ==> rest[j].invoice != x.invoice
    requires front <= rest
    requires var left := remaining - Max(0, Min(x.outstanding, remaining));
             ToAll(AllocateFifo(left, rest), front) == Min(left, Owed(front))
    ensures ToAll(AllocateFifo(remaining, [x] + rest), [x] + front) == Min(remaining, Owed([x] + front))
  {
    hide AllocateFifo, To, ToAll, Owed;
    var take := Max(0, Min(x.outstanding, remaining));
    OwedCons(x, front);
    FifoTotal(0, front);
    FifoStep(remaining, x, rest, x.invoice);
    FifoOnly(remaining - take, rest, x.invoice);
    ToAllCons(AllocateFifo(remaining, [x] + rest), x, front);
    forall j | 0 <= j < |front|
      ensures To(AllocateFifo(remaining, [x] + rest), front[j].invoice)
           == To(AllocateFifo(remaining - take, rest), front[j].invoice)
    {
      assert front[j] == rest[j];
      FifoStep(remaining, x, rest, front[j].invoice);
    }
    ToAllSame(AllocateFifo(remaining, [x] + rest), AllocateFifo(remaining - take, rest), front);
  }

  lemma {:induction false} ToAllCons(allocations: seq<InvoiceAllocation>, x: OutstandingInvoice,
                                     open: seq<OutstandingInvoice>)
    ensures ToAll(allocations, [x] + open) == To(allocations, x.invoice) + ToAll(allocations, open)
  {
    if open == [] {
      assert [x] + open == [x];
    } else {
      var n := |open| - 1;
      ToAllCons(allocations, x, open[..n]);
      assert ([x] + open)[..n + 1] == [x] + open[..n];
    }
  }

  lemma {:induction false} ToAllSame(a: seq<InvoiceAllocation>, b: seq<InvoiceAllocation>,
                                     open: seq<OutstandingInvoice>)
    requires forall j :: 0 <= j < |open| ==> To(a, open[j].invoice) == To(b, open[j].invoice)
    ensures ToAll(a, open) == ToAll(b, open)
  {
    if open != [] {
      ToAllSame(a, b, open[..|open| - 1]);
    }
  }

  // --- Two receipts in a row ----------------------------------------------------------------

  /** The list after a receipt of `a`. */
  function Reduce(open: seq<OutstandingInvoice>, a: int): (r: seq<OutstandingInvoice>)
    ensures |r| == |open|
  {
    if open == [] then []
    else
      var take := Max(0, Min(open[0].outstanding, a));
      [OutstandingInvoice(open[0].invoice, open[0].outstanding - take)] + Reduce(open[1..], a - take)
  }

  lemma {:induction false} ReduceNothing(open: seq<OutstandingInvoice>)
    ensures Reduce(open, 0) == open
  {
    if open != [] {
      ReduceNothing(open[1..]);
    }
  }

  lemma {:induction false} FifoComposes(open: seq<OutstandingInvoice>, a: nat, b: nat, i: nat)
    ensures To(AllocateFifo(a + b, open), i)
         == To(AllocateFifo(a, open), i) + To(AllocateFifo(b, Reduce(open, a)), i)
    decreases |open|, 0
  {
    hide AllocateFifo, To, Reduce, Min, Max;
    if open == [] {
      FifoOfNone(a, b, i);
    } else {
      var x, rest := open[0], open[1..];
      var t, t1 := Max(0, Min(x.outstanding, a + b)), Max(0, Min(x.outstanding, a));
      var y := OutstandingInvoice(x.invoice, x.outstanding - t1);
      var t2 := Max(0, Min(y.outstanding, b));
      TakeSplit(x.outstanding, a, b);
      assert open == [x] + rest;
      ReduceCons(a, x, rest);
      FifoStep(a + b, x, rest, i);
      FifoStep(a, x, rest, i);
      FifoStep(b, y, Reduce(rest, a - t1), i);
      FifoLeftOver(rest, a - t1, b, t2, i);
    }
  }

  lemma {:induction false} FifoOfNone(a: nat, b: nat, i: nat)
    ensures To(AllocateFifo(a + b, []), i) == To(AllocateFifo(a, []), i) + To(AllocateFifo(b, Reduce([], a)), i)
  {
  }

  lemma {:induction false} TakeSplit(x: int, a: nat, b: nat)
    ensures var t1 := Max(0, Min(x, a));
            var t2 := Max(0, Min(x - t1, b));
            && Max(0, Min(x, a + b)) == t1 + t2
            && 0 <= t1 <= a && 0 <= t2 <= b && (a == t1 || t2 == 0)
  {
  }

  /** The rest of the list sees either the rest of `a` and all of `b`, or only
      the rest of `b`. */
  lemma {:induction false} FifoLeftOver(rest: seq<OutstandingInvoice>, a: nat, b: nat, t2: nat, i: nat)
    requires t2 <= b && (a == 0 || t2 == 0)
    ensures To(AllocateFifo(a + b - t2, rest), i)
         == To(AllocateFifo(a, rest), i) + To(AllocateFifo(b - t2, Reduce(rest, a)), i)
    decreases |rest|, 1
  {
    if a == 0 {
      ReduceNothing(rest);
    } else {
      FifoComposes(rest, a, b, i);
    }
  }

  // --- The invoice table ------------------------------------------------------------------

  /** The customer's invoices in the order of the query: by invoice date, then by
      creation. */
  function CustomerOrder(invoices: seq<Invoice>, customer: Id): (ids: seq<nat>)
    ensures forall k :: 0 <= k < |ids| ==> ids[k] < |invoices|
  {
    if invoices == [] then []
    else
      var n := |invoices| - 1;
      var ids := CustomerOrder(invoices[..n], customer);
      if invoices[n].customer == Some(customer) then InsertByDate(invoices, ids, n) else ids
  }

  function InsertByDate(invoices: seq<Invoice>, ids: seq<nat>, n: nat): (r: seq<nat>)
    requires n < |invoices| && forall k :: 0 <= k < |ids| ==> ids[k] < |invoices|
    ensures |r| == |ids| + 1
    ensures forall k :: 0 <= k < |r| ==> r[k] == n || r[k] in ids
  {
    if ids != [] && invoices[n].date < invoices[ids[|ids| - 1]].date then
      InsertByDate(invoices, ids[..|ids| - 1], n) + [ids[|ids| - 1]]
    else ids + [n]
  }

  /** `i` comes before `j` in the query's order. */
  ghost predicate Older(invoices: seq<Invoice>, i: nat, j: nat)
    requires i < |invoices| && j < |invoices|
  {
    invoices[i].date < invoices[j].date || (invoices[i].date == invoices[j].date && i < j)
  }

  ghost predicate OldestFirst(invoices: seq<Invoice>, ids: seq<nat>) {
    && (forall k :: 0 <= k < |ids| ==> ids[k] < |invoices|)
    && (forall k, l :: 0 <= k < l < |ids| ==> Older(invoices, ids[k], ids[l]))
  }

  lemma {:induction false} OldestSnoc(invoices: seq<Invoice>, ids: seq<nat>, last: nat)
    requires OldestFirst(invoices, ids) && last < |invoices|
    requires forall i :: i in ids ==> Older(invoices, i, last)
    ensures OldestFirst(invoices, ids + [last])
  {
  }

  lemma {:induction false} OldestFront(invoices: seq<Invoice>, ids: seq<nat>)
    requires OldestFirst(invoices, ids) && ids != []
    ensures var front, last := ids[..|ids| - 1], ids[|ids| - 1];
            last < |invoices| && OldestFirst(invoices, front) && forall i :: i in front ==> Older(invoices, i, last)
  {
  }

  lemma {:induction false} InsertKeepsOrder(invoices: seq<Invoice>, ids: seq<nat>, n: nat)
    requires n < |invoices| && OldestFirst(invoices, ids)
    requires forall i :: i in ids ==> i < n
    ensures OldestFirst(invoices, InsertByDate(invoices, ids, n))
    ensures forall i :: i in InsertByDate(invoices, ids, n) <==> i == n || i in ids
  {
    hide OldestFirst;
    if ids == [] {
      OldestSnoc(invoices, ids, n);
    } else {
      var front, last := ids[..|ids| - 1], ids[|ids| - 1];
      OldestFront(invoices, ids);
      assert ids == front + [last];
      assert forall i :: i in front ==> i in ids;
      if invoices[n].date < invoices[last].date {
        InsertKeepsOrder(invoices, front, n);
        OldestSnoc(invoices, InsertByDate(invoices, front, n), last);
      } else {
        OldestSnoc(invoices, ids, n);
      }
    }
  }

  /** The order lists exactly the customer's invoices, oldest first. */
  lemma {:induction false} CustomerOrderIs(invoices: seq<Invoice>, customer: Id)
    ensures OldestFirst(invoices, CustomerOrder(invoices, customer))
    ensures forall i :: i in CustomerOrder(invoices, customer) <==>
                        0 <= i < |invoices| && invoices[i].customer == Some(customer)
  {
    if invoices != [] {
      var n := |invoices| - 1;
      var ids := CustomerOrder(invoices[..n], customer);
      CustomerOrderIs(invoices[..n], customer);
      forall k, l | 0 <= k < l < |ids| ensures Older(invoices, ids[k], ids[l]) {
        assert Older(invoices[..n], ids[k], ids[l]);
      }
      if invoices[n].customer == Some(customer) {
        InsertKeepsOrder(invoices, ids, n);
      }
    }
  }

  /** Only customers and dates matter to the order. */
  lemma {:induction false} CustomerOrderSame(a: seq<Invoice>, b: seq<Invoice>, customer: Id)
    requires |a| == |b|
    requires forall i :: 0 <= i < |a| ==> a[i].customer == b[i].customer && a[i].date == b[i].date
    ensures CustomerOrder(a, customer) == CustomerOrder(b, customer)
  {
    if a != [] {
      var n := |a| - 1;
      CustomerOrderSame(a[..n], b[..n], customer);
      InsertSame(a, b, CustomerOrder(a[..n], customer), n);
    }
  }

  lemma {:induction false} InsertSame(a: seq<Invoice>, b: seq<Invoice>, ids: seq<nat>, n: nat)
    requires |a| == |b| && n < |a| && forall k :: 0 <= k < |ids| ==> ids[k] < |a|
    requires forall i :: 0 <= i < |a| ==> a[i].date == b[i].date
    ensures InsertByDate(a, ids, n) == InsertByDate(b, ids, n)
  {
    if ids != [] && a[n].date < a[ids[|ids| - 1]].date {
      InsertSame(a, b, ids[..|ids| - 1], n);
    }
  }

  /** `_outstanding_invoices`: the not-PAID ones of the order. */
  function OpenIds(invoices: seq<Invoice>, ids: seq<nat>): (r: seq<nat>)
    requires forall k :: 0 <= k < |ids| ==> ids[k] < |invoices|
    ensures forall k :: 0 <= k < |r| ==> r[k] in ids
  {
    if ids == [] then []
    else (if invoices[ids[0]].status == Paid then [] else [ids[0]]) + OpenIds(invoices, ids[1..])
  }

  function OpenList(invoices: seq<Invoice>, ids: seq<nat>): (r: seq<OutstandingInvoice>)
    requires forall k :: 0 <= k < |ids| ==> ids[k] < |invoices|
    ensures |r| == |ids|
    ensures forall k :: 0 <= k < |ids| ==> r[k] == OutstandingInvoice(ids[k], Outstanding(invoices[ids[k]]))
  {
    if ids == [] then []
    else [OutstandingInvoice(ids[0], Outstanding(invoices[ids[0]]))] + OpenList(invoices, ids[1..])
  }

  function Entry(invoices: seq<Invoice>, i: nat): OutstandingInvoice
    requires i < |invoices|
  {
    OutstandingInvoice(i, Outstanding(invoices[i]))
  }

  lemma {:induction false} ListCons(invoices: seq<Invoice>, i: nat, ids: seq<nat>)
    requires i < |invoices| && forall k :: 0 <= k < |ids| ==> ids[k] < |invoices|
    ensures OpenList(invoices, [i] + ids) == [Entry(invoices, i)] + OpenList(invoices, ids)
    ensures OpenIds(invoices, [i] + ids)
         == if invoices[i].status == Paid then OpenIds(invoices, ids) else [i] + OpenIds(invoices, ids)
  {
    assert ([i] + ids)[1..] == ids;
    assert [] + OpenIds(invoices, ids) == OpenIds(invoices, ids);
  }

  lemma {:induction false} FifoCons(q: int, x: OutstandingInvoice, rest: seq<OutstandingInvoice>)
    ensures AllocateFifo(q, [x] + rest) ==
            if q <= 0 then [] else if x.outstanding <= 0 then AllocateFifo(q, rest)
            else [InvoiceAllocation(x.invoice, Min(x.outstanding, q))] + AllocateFifo(q - Min(x.outstanding, q), rest)
  {
    assert ([x] + rest)[1..] == rest;
  }

  /** Skipping PAID invoices changes nothing: they owe nothing. */
  lemma {:induction false} FifoSkipsPaid(remaining: int, invoices: seq<Invoice>, ids: seq<nat>)
    requires forall k :: 0 <= k < |ids| ==> ids[k] < |invoices|
    requires InvoicesOk(invoices)
    ensures AllocateFifo(remaining, OpenList(invoices, OpenIds(invoices, ids)))
         == AllocateFifo(remaining, OpenList(invoices, ids))
    decreases |ids|
  {
    if ids != [] {
      hide AllocateFifo, OpenList, OpenIds;
      var i, rest := ids[0], ids[1..];
      var x := Entry(invoices, i);
      assert ids == [i] + rest;
      ListCons(invoices, i, rest);
      FifoSkipsPaid(remaining, invoices, rest);
      FifoSkipsPaid(remaining - Min(x.outstanding, remaining), invoices, rest);
      FifoCons(remaining, x, OpenList(invoices, rest));
      if invoices[i].status == Paid {
        assert x.outstanding == 0;
        FifoNothing(remaining, OpenList(invoices, rest));
      } else {
        ListCons(invoices, i, OpenIds(invoices, rest));
        FifoCons(remaining, x, OpenList(invoices, OpenIds(invoices, rest)));
      }
    }
  }

  lemma {:induction false} FifoNothing(q: int, open: seq<OutstandingInvoice>)
    ensures q <= 0 ==> AllocateFifo(q, open) == []
  {
  }

  /** One invoice after receiving `x`. */
  function Settle(inv: Invoice, x: int): Invoice {
    if x == 0 then inv
    else inv.(paid := inv.paid + x, status := if inv.grandTotal <= inv.paid + x then Paid else Partial)
  }

  /** The invoice table after a list of allocations. */
  function Settled(invoices: seq<Invoice>, allocations: seq<InvoiceAllocation>): (r: seq<Invoice>)
    ensures |r| == |invoices|
  {
    seq(|invoices|, i requires 0 <= i < |invoices| => Settle(invoices[i], To(allocations, i)))
  }

  /** The allocations of a receipt of `amount` from a customer. */
  function ReceiptAllocations(invoices: seq<Invoice>, customer: Id, amount: int): seq<InvoiceAllocation> {
    AllocateFifo(amount, OpenList(invoices, OpenIds(invoices, CustomerOrder(invoices, customer))))
  }

  /** `allocations` go to distinct invoices of the customer and stay within what
      each one owes. */
  ghost predicate Settles(invoices: seq<Invoice>, customer: Id, allocations: seq<InvoiceAllocation>) {
    && (forall k, l :: 0 <= k < l < |allocations| ==> allocations[k].invoice != allocations[l].invoice)
    && (forall k :: 0 <= k < |allocations| ==>
          var a := allocations[k];
          && a.invoice < |invoices| && invoices[a.invoice].customer == Some(customer)
          && 0 < a.amount <= Outstanding(invoices[a.invoice]))
  }

  lemma {:induction false} FifoSettles(remaining: int, invoices: seq<Invoice>, customer: Id, ids: seq<nat>)
    requires forall k :: 0 <= k < |ids| ==> ids[k] < |invoices| && invoices[ids[k]].customer == Some(customer)
    requires forall k, l :: 0 <= k < l < |ids| ==> ids[k] != ids[l]
    ensures var allocations := AllocateFifo(remaining, OpenList(invoices, ids));
            Settles(invoices, customer, allocations)
            && forall k :: 0 <= k < |allocations| ==> allocations[k].invoice in ids
    decreases |ids|
  {
    if 0 < remaining && ids != [] {
      var x := Outstanding(invoices[ids[0]]);
      FifoSettles(if x <= 0 then remaining else remaining - Min(x, remaining), invoices, customer, ids[1..]);
      assert OpenList(invoices, ids)[1..] == OpenList(invoices, ids[1..]);
    }
  }

  lemma {:induction false} ToIs(allocations: seq<InvoiceAllocation>, k: nat)
    requires k < |allocations|
    requires forall i, j :: 0 <= i < j < |allocations| ==> allocations[i].invoice != allocations[j].invoice
    ensures To(allocations, allocations[k].invoice) == allocations[k].amount
  {
    var n := |allocations| - 1;
    if k < n {
      ToIs(allocations[..n], k);
    } else {
      ToNothing(allocations[..n], allocations[n].invoice);
    }
  }

  lemma {:induction false} ToNothing(allocations: seq<InvoiceAllocation>, i: nat)
    requires forall k :: 0 <= k < |allocations| ==> allocations[k].invoice != i
    ensures To(allocations, i) == 0
  {
    if allocations != [] {
      ToNothing(allocations[..|allocations| - 1], i);
    }
  }

  /** Settling keeps every invoice within its total and its status right. */
  lemma {:induction false} SettledOk(invoices: seq<Invoice>, customer: Id, allocations: seq<InvoiceAllocation>)
    requires InvoicesOk(invoices)
    requires Settles(invoices, customer, allocations)
    ensures InvoicesOk(Settled(invoices, allocations))
    ensures forall i :: 0 <= i < |invoices| ==>
              Settled(invoices, allocations)[i].paid == invoices[i].paid + To(allocations, i)
  {
    forall i | 0 <= i < |invoices|
      ensures InvoiceOk(Settle(invoices[i], To(allocations, i)))
      ensures Settle(invoices[i], To(allocations, i)).paid == invoices[i].paid + To(allocations, i)
    {
      if k :| 0 <= k < |allocations| && allocations[k].invoice == i {
        ToIs(allocations, k);
      } else {
        ToNothing(allocations, i);
      }
    }
  }

  /** Two receipts of `a` and `b` leave every paid amount and status, and the same
      total advance, as one receipt of `a + b`. */
  lemma {:induction false} ReceiptsCompose(invoices: seq<Invoice>, customer: Id, a: nat, b: nat)
    requires InvoicesOk(invoices)
    ensures var first := Settled(invoices, ReceiptAllocations(invoices, customer, a));
            && Settled(first, ReceiptAllocations(first, customer, b))
               == Settled(invoices, ReceiptAllocations(invoices, customer, a + b))
            && (a - Amount(ReceiptAllocations(invoices, customer, a)))
               + (b - Amount(ReceiptAllocations(first, customer, b)))
               == a + b - Amount(ReceiptAllocations(invoices, customer, a + b))
  {
    hide *;
    var open := OpenList(invoices, CustomerOrder(invoices, customer)) by {
      CustomerOrderIs(invoices, customer);
    }
    ReceiptIs(invoices, customer, a);
    ReceiptIs(invoices, customer, a + b);
    SecondReceipt(invoices, customer, a, b);
    SettledTwice(invoices, open, a, b);
    AdvancesAdd(open, a, b);
  }

  /** A receipt walks everything the customer ever bought. */
  lemma {:induction false} ReceiptIs(invoices: seq<Invoice>, customer: Id, a: nat)
    requires InvoicesOk(invoices)
    ensures ReceiptAllocations(invoices, customer, a)
         == AllocateFifo(a, OpenList(invoices, CustomerOrder(invoices, customer)))
  {
    CustomerOrderIs(invoices, customer);
    hide AllocateFifo, OpenList, OpenIds, CustomerOrder;
    FifoSkipsPaid(a, invoices, CustomerOrder(invoices, customer));
  }

  /** The second receipt meets the list the first one reduced. */
  lemma {:induction false} SecondReceipt(invoices: seq<Invoice>, customer: Id, a: nat, b: nat)
    requires InvoicesOk(invoices)
    ensures var open := OpenList(invoices, CustomerOrder(invoices, customer));
            ReceiptAllocations(Settled(invoices, ReceiptAllocations(invoices, customer, a)), customer, b)
            == AllocateFifo(b, Reduce(open, a))
  {
    hide *;
    var one := ReceiptAllocations(invoices, customer, a);
    ReceiptSettles(invoices, customer, a);
    SettledOk(invoices, customer, one);
    SameCustomers(invoices, one);
    CustomerOrderSame(invoices, Settled(invoices, one), customer);
    FirstLeaves(invoices, customer, a);
    ReceiptIs(Settled(invoices, one), customer, b);
  }

  lemma {:induction false} SameCustomers(invoices: seq<Invoice>, allocations: seq<InvoiceAllocation>)
    ensures forall i :: 0 <= i < |invoices| ==>
              var t := Settled(invoices, allocations)[i];
              t.customer == invoices[i].customer && t.date == invoices[i].date
  {
    hide To;
  }

  /** What a receipt allocates settles open invoices of that customer. */
  lemma {:induction false} ReceiptSettles(invoices: seq<Invoice>, customer: Id, a: nat)
    requires InvoicesOk(invoices)
    ensures Settles(invoices, customer, ReceiptAllocations(invoices, customer, a))
  {
    CustomerOrderIs(invoices, customer);
    hide AllocateFifo, OpenList, OpenIds, CustomerOrder, ReceiptAllocations, Settles;
    ReceiptIs(invoices, customer, a);
    FifoSettles(a, invoices, customer, CustomerOrder(invoices, customer));
  }

  lemma {:induction false} FirstLeaves(invoices: seq<Invoice>, customer: Id, a: nat)
    requires InvoicesOk(invoices)
    ensures var ids := CustomerOrder(invoices, customer);
            OpenList(Settled(invoices, ReceiptAllocations(invoices, customer, a)), ids)
            == Reduce(OpenList(invoices, ids), a)
  {
    CustomerOrderIs(invoices, customer);
    hide AllocateFifo, OpenList, OpenIds, CustomerOrder, ReceiptAllocations, Settled, Reduce, To;
    ReceiptIs(invoices, customer, a);
    ReducedList(invoices, CustomerOrder(invoices, customer), a, ReceiptAllocations(invoices, customer, a));
  }

  lemma {:induction false} SettledTwice(invoices: seq<Invoice>, open: seq<OutstandingInvoice>, a: nat, b: nat)
    ensures Settled(Settled(invoices, AllocateFifo(a, open)), AllocateFifo(b, Reduce(open, a)))
         == Settled(invoices, AllocateFifo(a + b, open))
  {
    hide AllocateFifo, Reduce, To;
    var one, two, both := AllocateFifo(a, open), AllocateFifo(b, Reduce(open, a)), AllocateFifo(a + b, open);
    forall i | 0 <= i < |invoices| ensures Settled(Settled(invoices, one), two)[i] == Settled(invoices, both)[i] {
      FifoComposes(open, a, b, i);
      AmountsNonNegative(two, b, Reduce(open, a), i);
      AmountsNonNegative(one, a, open, i);
    }
  }

  lemma {:induction false} AdvancesAdd(open: seq<OutstandingInvoice>, a: nat, b: nat)
    ensures Amount(AllocateFifo(a, open)) + Amount(AllocateFifo(b, Reduce(open, a)))
         == Amount(AllocateFifo(a + b, open))
  {
    hide AllocateFifo, Reduce, Amount, Owed;
    FifoTotal(a, open);
    FifoTotal(a + b, open);
    FifoTotal(b, Reduce(open, a));
    OwedAfter(open, a);
  }

  lemma {:induction false} AmountsNonNegative(allocations: seq<InvoiceAllocation>, q: int,
                                              open: seq<OutstandingInvoice>, i: nat)
    requires allocations == AllocateFifo(q, open)
    ensures 0 <= To(allocations, i)
    decreases |open|
  {
    if 0 < q && open != [] {
      var x, rest := open[0], open[1..];
      var take := Max(0, Min(x.outstanding, q));
      assert open == [x] + rest;
      FifoStep(q, x, rest, i);
      AmountsNonNegative(AllocateFifo(q - take, rest), q - take, rest, i);
    }
  }

  lemma {:induction false} OwedAfter(open: seq<OutstandingInvoice>, a: nat)
    ensures Owed(Reduce(open, a)) == Owed(open) - Min(a, Owed(open))
    ensures 0 <= Owed(open)
    decreases |open|
  {
    if open != [] {
      hide Reduce, Owed;
      var x, rest := open[0], open[1..];
      var take := Max(0, Min(x.outstanding, a));
      assert open == [x] + rest;
      OwedAfter(rest, a - take);
      ReduceCons(a, x, rest);
      OwedCons(x, rest);
      OwedCons(OutstandingInvoice(x.invoice, x.outstanding - take), Reduce(rest, a - take));
    }
  }

  /** Two allocation lists give each of these invoices the same. */
  ghost predicate SameFor(one: seq<InvoiceAllocation>, two: seq<InvoiceAllocation>, ids: seq<nat>) {
    forall k :: 0 <= k < |ids| ==> To(one, ids[k]) == To(two, ids[k])
  }

  ghost predicate Rows(ids: seq<nat>, n: nat) {
    && (forall k :: 0 <= k < |ids| ==> ids[k] < n)
    && (forall k, l :: 0 <= k < l < |ids| ==> ids[k] != ids[l])
  }

  lemma {:induction false} RowsTail(i: nat, rest: seq<nat>, n: nat)
    requires Rows([i] + rest, n)
    ensures i < n && Rows(rest, n) && forall k :: 0 <= k < |rest| ==> rest[k] != i && rest[k] < n
  {
    var ids := [i] + rest;
    assert ids[0] == i && forall k :: 0 <= k < |rest| ==> rest[k] == ids[k + 1];
  }

  /** The open list after the first receipt is the reduced list. */
  lemma {:induction false} ReducedList(invoices: seq<Invoice>, ids: seq<nat>, a: nat, one: seq<InvoiceAllocation>)
    requires Rows(ids, |invoices|)
    requires SameFor(one, AllocateFifo(a, OpenList(invoices, ids)), ids)
    ensures OpenList(Settled(invoices, one), ids) == Reduce(OpenList(invoices, ids), a)
    decreases |ids|
  {
    hide *;
    if ids == [] {
      ReducedNothing(invoices, a, one);
    } else {
      var i, rest := ids[0], ids[1..];
      assert ids == [i] + rest;
      RowsTail(i, rest, |invoices|);
      ReducedCons(invoices, i, rest, a, one);
      ReducedList(invoices, rest, a - Max(0, Min(Outstanding(invoices[i]), a)), one);
      ReducedStep(invoices, i, rest, a, one);
    }
  }

  lemma {:induction false} ReducedNothing(invoices: seq<Invoice>, a: nat, one: seq<InvoiceAllocation>)
    ensures OpenList(Settled(invoices, one), []) == Reduce(OpenList(invoices, []), a)
  {
    hide To, Settle;
  }

  lemma {:induction false} ReducedCons(invoices: seq<Invoice>, i: nat, rest: seq<nat>, a: nat,
                                       one: seq<InvoiceAllocation>)
    requires i < |invoices| && Rows(rest, |invoices|) && forall k :: 0 <= k < |rest| ==> rest[k] != i
    requires SameFor(one, AllocateFifo(a, OpenList(invoices, [i] + rest)), [i] + rest)
    ensures var take := Max(0, Min(Outstanding(invoices[i]), a));
            && 0 <= take <= a && To(one, i) == take
            && SameFor(one, AllocateFifo(a - take, OpenList(invoices, rest)), rest)
  {
    ListCons(invoices, i, rest);
    hide AllocateFifo, To, OpenIds, SameFor;
    FirstTake(Entry(invoices, i), OpenList(invoices, rest), rest, a, one);
  }

  /** The first row takes its share, the others see the rest of the receipt. */
  lemma {:induction false} FirstTake(x: OutstandingInvoice, tail: seq<OutstandingInvoice>, ids: seq<nat>, a: nat,
                                     one: seq<InvoiceAllocation>)
    requires SameFor(one, AllocateFifo(a, [x] + tail), [x.invoice] + ids)
    requires forall k :: 0 <= k < |ids| ==> ids[k] != x.invoice
    requires forall k :: 0 <= k < |tail| ==> tail[k].invoice != x.invoice
    ensures var take := Max(0, Min(x.outstanding, a));
            && To(one, x.invoice) == take
            && SameFor(one, AllocateFifo(a - take, tail), ids)
  {
    var take := Max(0, Min(x.outstanding, a));
    hide AllocateFifo, To, Min, Max;
    SameForHead(one, AllocateFifo(a, [x] + tail), x.invoice, ids);
    FifoOnly(a - take, tail, x.invoice);
    TakesFirst(x, tail, ids, a);
    SameForBoth(one, AllocateFifo(a, [x] + tail), AllocateFifo(a - take, tail), ids);
  }

  lemma {:induction false} TakesFirst(x: OutstandingInvoice, tail: seq<OutstandingInvoice>, ids: seq<nat>, a: nat)
    requires forall k :: 0 <= k < |ids| ==> ids[k] != x.invoice
    ensures var take := Max(0, Min(x.outstanding, a));
            && To(AllocateFifo(a, [x] + tail), x.invoice) == take + To(AllocateFifo(a - take, tail), x.invoice)
            && SameFor(AllocateFifo(a, [x] + tail), AllocateFifo(a - take, tail), ids)
  {
    var take := Max(0, Min(x.outstanding, a));
    hide AllocateFifo, To, Min, Max;
    FifoStep(a, x, tail, x.invoice);
    forall k | 0 <= k < |ids|
      ensures To(AllocateFifo(a, [x] + tail), ids[k]) == To(AllocateFifo(a - take, tail), ids[k])
    {
      FifoStep(a, x, tail, ids[k]);
    }
  }

  lemma {:induction false} SameForHead(one: seq<InvoiceAllocation>, two: seq<InvoiceAllocation>, i: nat, ids: seq<nat>)
    requires SameFor(one, two, [i] + ids)
    ensures To(one, i) == To(two, i) && SameFor(one, two, ids)
  {
    hide To;
    var all := [i] + ids;
    assert all[0] == i;
    assert forall k :: 0 <= k < |ids| ==> ids[k] == all[k + 1];
  }

  lemma {:induction false} SameForBoth(one: seq<InvoiceAllocation>, two: seq<InvoiceAllocation>,
                                       three: seq<InvoiceAllocation>, ids: seq<nat>)
    requires SameFor(one, two, ids) && SameFor(two, three, ids)
    ensures SameFor(one, three, ids)
  {
    hide To;
  }

  lemma {:induction false} ReducedStep(invoices: seq<Invoice>, i: nat, rest: seq<nat>, a: nat,
                                       one: seq<InvoiceAllocation>)
    requires i < |invoices| && forall k :: 0 <= k < |rest| ==> rest[k] < |invoices|
    requires var take := Max(0, Min(Outstanding(invoices[i]), a));
             To(one, i) == take
             && OpenList(Settled(invoices, one), rest) == Reduce(OpenList(invoices, rest), a - take)
    ensures OpenList(Settled(invoices, one), [i] + rest) == Reduce(OpenList(invoices, [i] + rest), a)
  {
    hide To, OpenList, OpenIds, Reduce, Settled, Settle;
    ListCons(invoices, i, rest);
    ListCons(Settled(invoices, one), i, rest);
    ReduceCons(a, Entry(invoices, i), OpenList(invoices, rest));
    SettledEntry(invoices, one, i);
  }

  lemma {:induction false} SettledEntry(invoices: seq<Invoice>, one: seq<InvoiceAllocation>, i: nat)
    requires i < |invoices|
    ensures Entry(Settled(invoices, one), i) == OutstandingInvoice(i, Outstanding(invoices[i]) - To(one, i))
  {
  }

  lemma {:induction false} ReduceCons(a: int, x: OutstandingInvoice, rest: seq<OutstandingInvoice>)
    ensures var take := Max(0, Min(x.outstanding, a));
            Reduce([x] + rest, a) == [OutstandingInvoice(x.invoice, x.outstanding - take)] + Reduce(rest, a - take)
  {
    var open := [x] + rest;
    ReduceUnfold(open, a);
    hide *;
    assert open[0] == x && open[1..] == rest;
  }

  lemma {:induction false} ReduceUnfold(open: seq<OutstandingInvoice>, a: int)
    requires open != []
    ensures var take := Max(0, Min(open[0].outstanding, a));
            Reduce(open, a)
            == [OutstandingInvoice(open[0].invoice, open[0].outstanding - take)] + Reduce(open[1..], a - take)
  {
  }
}
