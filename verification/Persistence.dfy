/** The document tables one database session sees. */
module Persistence {
  import opened Stock
  import opened Documents

  class Database {
    var orders: seq<SalesOrder>
    var invoices: seq<Invoice>
    var payments: seq<Payment>
    var allocations: seq<PaymentAllocation>
    var journal: seq<JournalEntry>
    var jobs: seq<RepairJob>
    var parts: seq<RepairPart>
    var keys: map<string, nat>
    var numbers: map<Scope, NumberSequence>
    var codes: map<Id, string>

    constructor ()
      ensures View() == EMPTY_BOOKS
    {
      orders, invoices, payments, allocations, journal := [], [], [], [], [];
      jobs, parts := [], [];
      keys, numbers, codes := map[], map[], map[];
    }

    function View(): Books
      reads this
    {
      Books(orders, invoices, payments, allocations, journal, jobs, parts, keys, numbers, codes)
    }

    /** The session rolls back to what the transaction found
        (backend/app/core/database.py:83-87). */
    method Rollback(snapshot: Books)
      modifies this
      ensures View() == snapshot
    {
      orders, invoices, payments := snapshot.orders, snapshot.invoices, snapshot.payments;
      allocations, journal := snapshot.allocations, snapshot.journal;
      jobs, parts := snapshot.jobs, snapshot.parts;
      keys, numbers, codes := snapshot.keys, snapshot.numbers, snapshot.codes;
    }
  }
}
