/** What a customer can come to owe from orders already confirmed: which of them can
    still ship, and exactly when none can take the customer past a limit
    (sales/wholesale_service.py:71-84, 200-330, numbering/service.py:89-104). */
module Shipping {
  import opened Prelude
  import opened MapSum
  import opened Stock
  import opened StockLines
  import opened Fulfilment
  import opened Documents
  import opened Numbering
  import opened Registers
  import opened Catalogue
  import opened SaleRules
  import opened OrderRules
  import opened CreditLimit
  import opened Runs
  import opened Guarantees
  import opened Progress

  /** No step of the run adds to the customer's exposure, as a sale on credit or a
      confirmed order would; whatever else happens, for anybody, is left open. */
  ghost predicate Waits(w: World, steps: seq<Step>, customer: Id)
    requires RunOk(w, steps)
    decreases |steps|
  {
    steps == [] || (ExposureAdded(w, steps[0], customer) <= 0 && Waits(Apply(w, steps[0]), steps[1..], customer))
  }

  /** No such run takes what the customer owes past the limit. */
  ghost predicate NeverExceeds(w: World, customer: Id, limit: int) {
    forall more :: RunOk(w, more) && Waits(w, more, customer) ==>
                     CustomerOutstanding(After(w, more).books.invoices, customer) <= limit
  }

  /** Branches that can all still number invoices: none is overtaken, and no two print
      the same prefix. */
  predicate ShipTogether(b: Books, branches: set<Option<Id>>) {
    && (forall x :: x in branches ==> !Overtaken(b.numbers, b.codes, Scope(InvoiceDocument, x)))
    && (forall x, y :: x in branches && y in branches && x != y ==> !PrintAlike(b.codes, x, y))
  }

  function BranchesOf(orders: seq<SalesOrder>): (r: set<Option<Id>>)
    ensures forall i :: 0 <= i < |orders| ==> orders[i].branch in r
  {
    set i | 0 <= i < |orders| :: orders[i].branch
  }

  /** Each of the finitely many choices of such branches, among those that have orders,
      leaves what will be owed within the limit. */
  ghost predicate WithinTogether(b: Books, customer: Id, limit: int) {
    forall branches :: branches <= BranchesOf(b.orders) && ShipTogether(b, branches) ==>
                         OwedAfter(b, customer, branches) <= limit
  }

  // --- No run does worse than some such branches ---------------------------------------------

  /** Branches that ship together after a step did so before it. */
  lemma {:induction false} TogetherBefore(w: World, step: Step, branches: set<Option<Id>>)
    requires Inv(w) && Enabled(w, step) && ShipTogether(Apply(w, step).books, branches)
    ensures ShipTogether(w.books, branches)
  {
    hide Inv, Enabled, Apply, Overtaken, PrintAlike, Proceeds;
    StepProceeds(w, step);
    var b, after := w.books, Apply(w, step).books;
    AlikeStays(b, after);
    forall x | x in branches ensures !Overtaken(b.numbers, b.codes, Scope(InvoiceDocument, x)) {
      if Overtaken(b.numbers, b.codes, Scope(InvoiceDocument, x)) {
        OvertakenStays(b.numbers, b.codes, after.numbers, after.codes, Scope(InvoiceDocument, x));
      }
    }
  }

  lemma {:induction false} AlikeStays(b: Books, after: Books)
    requires Proceeds(b.numbers, b.codes, after.numbers, after.codes)
    ensures forall x, y :: PrintAlike(b.codes, x, y) ==> PrintAlike(after.codes, x, y)
  {
    hide Overtaken;
  }

  /** And a dispatch's own branch joins them: any that prints alike would have been
      overtaken by it. */
  lemma {:induction false} DispatchJoins(w: World, step: Step, branches: set<Option<Id>>)
    requires Inv(w) && step.Dispatch? && Enabled(w, step) && ShipTogether(Apply(w, step).books, branches)
    ensures ShipTogether(w.books, branches + {w.books.orders[step.id].branch})
  {
    hide Inv, Enabled, Apply, Overtaken, PrintAlike, Advanced, ApplyOrderDispatch;
    DispatchIsThere(w, step);
    DispatchNumbers(w, step);
    TogetherBefore(w, step, branches);
    var b, x := w.books, w.books.orders[step.id].branch;
    forall y | y in branches && y != x ensures !PrintAlike(b.codes, x, y) {
      if PrintAlike(b.codes, x, y) {
        IssueOvertakes(b.numbers, b.codes, InvoiceDocument, x, y);
        assert false;
      }
    }
    OneMore(b, branches, x);
  }

  lemma {:induction false} OneMore(b: Books, branches: set<Option<Id>>, x: Option<Id>)
    requires ShipTogether(b, branches) && !Overtaken(b.numbers, b.codes, Scope(InvoiceDocument, x))
    requires forall y :: y in branches && y != x ==> !PrintAlike(b.codes, x, y)
    ensures ShipTogether(b, branches + {x})
  {
    hide Overtaken, PrintAlike;
    forall y, z | y in branches + {x} && z in branches + {x} && y != z ensures !PrintAlike(b.codes, y, z) {
      AlikeBoth(b.codes, y, z);
    }
  }

  lemma {:induction false} AlikeBoth(codes: map<Id, string>, x: Option<Id>, y: Option<Id>)
    ensures PrintAlike(codes, x, y) <==> PrintAlike(codes, y, x)
  {
  }

  /** What a dispatch does to the books and their sequences. */
  lemma {:induction false} DispatchNumbers(w: World, step: Step)
    requires Inv(w) && step.Dispatch? && Enabled(w, step)
    ensures var b, after := w.books, Apply(w, step).books;
            var scope := ShipScope(b.orders[step.id]);
            && !Overtaken(b.numbers, b.codes, scope) && KnownBranch(scope.branch, b.codes)
            && SequencesOk(b.numbers, b.codes)
            && after.numbers == Advanced(b.numbers, b.codes, scope) && after.codes == b.codes
            && after == ApplyOrderDispatch(b, step.id, step.date)
  {
    assert NumbersOk(w.books);
    hide NumbersOk, CanIssue, Advanced, Overtaken, DispatchLinesOk, ShippedItems, OrderInvoice;
    OrderBranchKnown(w.books, step.id);
    ShipNumberFree(w.books, step.id);
    SequencesAre(w.books);
  }

  /** A step that adds nothing to the customer's exposure adds nothing to what will be
      owed at any branches, once its own is among them. */
  lemma {:induction false} StepOwed(w: World, step: Step, customer: Id, branches: set<Option<Id>>)
    requires Inv(w) && Enabled(w, step) && ExposureAdded(w, step, customer) <= 0
    requires step.Dispatch? ==> w.books.orders[step.id].branch in branches
    ensures OwedAfter(Apply(w, step).books, customer, branches) <= OwedAfter(w.books, customer, branches)
  {
    hide Inv, Enabled, Apply, ExposureAdded, Exposure, OwedAfter, ApplyOrderDispatch, ApplyOrder, Overtaken, Advanced;
    var b, after := w.books, Apply(w, step).books;
    if step.PlaceOrder? {
      PlacedBooks(w, step, customer);
      OrderOwed(b, step.products, step.order, customer, branches);
    } else if step.Dispatch? {
      DispatchIsThere(w, step);
      DispatchNumbers(w, step);
      DispatchKeepsOwed(b, step.id, step.date, customer, branches);
    } else {
      StepExposure(w, step, customer);
      OrdersStay(w, step);
      SameOrdersOwed(b, after, customer, branches);
    }
  }

  lemma {:induction false} PlacedBooks(w: World, step: Step, customer: Id)
    requires Enabled(w, step) && step.PlaceOrder? && ExposureAdded(w, step, customer) <= 0
    ensures Apply(w, step).books == ApplyOrder(w.books, step.products, step.order)
    ensures !step.order.isQuotation && step.order.customer == customer ==>
              CartTotals(step.products, step.order.lines, Dealer).grand <= 0
  {
    hide OrderEnabled, ApplyOrder, CartTotals;
    OrderIssues(w, step.products, step.customers, step.order, step.plans);
  }

  lemma {:induction false} OrderOwed(b: Books, products: map<Id, Product>, req: OrderRequest, customer: Id,
                                     branches: set<Option<Id>>)
    requires !req.isQuotation && req.customer == customer ==> CartTotals(products, req.lines, Dealer).grand <= 0
    ensures OwedAfter(ApplyOrder(b, products, req), customer, branches) <= OwedAfter(b, customer, branches)
  {
    hide CustomerOutstanding, TotalAt, CartTotals, ItemsOf, NextOf, Advanced;
    TotalAtSnoc(b.orders, NewOrder(b, products, req), customer, branches);
  }

  lemma {:induction false} OrdersStay(w: World, step: Step)
    requires Enabled(w, step) && !step.PlaceOrder? && !step.Dispatch?
    ensures Apply(w, step).books.orders == w.books.orders
  {
    hide SaleOk, IssueLinesOk, IssueOk, CanIssue, CartTotals, Advanced;
  }

  lemma {:induction false} SameOrdersOwed(b: Books, after: Books, customer: Id, branches: set<Option<Id>>)
    requires after.orders == b.orders && Exposure(after, customer) <= Exposure(b, customer)
    ensures OwedAfter(after, customer, branches) <= OwedAfter(b, customer, branches)
  {
    hide CustomerOutstanding, ConfirmedTotal, TotalAt;
  }

  /** What the customer owes at the end is at most what some branches that can ship
      together would make of it. */
  lemma {:induction false} NoWorse(w: World, more: seq<Step>, customer: Id) returns (branches: set<Option<Id>>)
    requires Inv(w) && RunOk(w, more) && Waits(w, more, customer)
    ensures ShipTogether(w.books, branches)
    ensures CustomerOutstanding(After(w, more).books.invoices, customer) <= OwedAfter(w.books, customer, branches)
    decreases |more|
  {
    if more == [] {
      branches := {};
      InvOrders(w);
      TotalAtMonotone(w.books.orders, customer, {}, {});
    } else {
      hide Inv, Enabled, Apply, ShipTogether, OwedAfter, CustomerOutstanding, ExposureAdded;
      var next := Apply(w, more[0]);
      StepKeeps(w, more[0]);
      var rest := NoWorse(next, more[1..], customer);
      branches := OneStepEarlier(w, more[0], customer, rest);
    }
  }

  lemma {:induction false} OneStepEarlier(w: World, step: Step, customer: Id, rest: set<Option<Id>>)
    returns (branches: set<Option<Id>>)
    requires Inv(w) && Enabled(w, step) && ExposureAdded(w, step, customer) <= 0
    requires ShipTogether(Apply(w, step).books, rest)
    ensures ShipTogether(w.books, branches)
    ensures OwedAfter(Apply(w, step).books, customer, rest) <= OwedAfter(w.books, customer, branches)
  {
    hide Inv, Enabled, Apply, ShipTogether, ExposureAdded, TotalAt, CustomerOutstanding;
    var next := Apply(w, step);
    if step.Dispatch? {
      branches := rest + {w.books.orders[step.id].branch} by {
        DispatchNumbers(w, step);
        DispatchIsThere(w, step);
      }
      DispatchJoins(w, step, rest);
    } else {
      branches := rest;
      TogetherBefore(w, step, rest);
    }
    StepOwed(w, step, customer, branches);
    StepKeeps(w, step);
    InvOrders(next);
    TotalAtMonotone(next.books.orders, customer, rest, branches);
  }

  lemma {:induction false} DispatchIsThere(w: World, step: Step)
    requires step.Dispatch? && Enabled(w, step)
    ensures CanDispatch(w.books, step.id)
  {
  }

  lemma {:induction false} InvOrders(w: World)
    requires Inv(w)
    ensures OrdersOk(w.books.orders)
  {
  }

  // --- And they can all ship -------------------------------------------------------------------

  /** A receipt makes a quantity sellable on top of what the un-batched row has
      promised, and never makes less sellable. */
  lemma {:induction false} ReceiptRaises(shelf: Shelf, q: nat, asOf: Date)
    requires NonNegative(shelf)
    ensures var after := Posted(shelf, None, q + ReservedAt(shelf, None));
            q <= UsableTotal(after, asOf) && UsableTotal(shelf, asOf) <= UsableTotal(after, asOf)
  {
    var after := Posted(shelf, None, q + ReservedAt(shelf, None));
    var usable := UsableAt(after, asOf);
    UsableNonNegative(after, asOf);
    TotalRemove(usable, None);
    TotalNonNegative(usable - {None});
    if None in shelf {
      TotalAtMost(UsableAt(shelf, asOf), usable);
    } else {
      assert usable - {None} == UsableAt(shelf, asOf);
    }
  }

  /** As much is sellable of everything. */
  ghost predicate NoPoorer(s: StockState, t: StockState, asOf: Date) {
    forall at :: UsableIn(s, at, asOf) <= UsableIn(t, at, asOf)
  }

  /** The first `n` lines of an order are sellable. */
  ghost predicate LinesStocked(s: StockState, at: Id, lines: seq<Line>, n: nat, asOf: Date)
    requires n <= |lines|
  {
    forall i :: 0 <= i < n ==> Demand(lines, lines[i].product) <= UsableIn(s, Slot(at, lines[i].product), asOf)
  }

  /** Stock arrives for one product of an order. */
  lemma {:induction false} Restock(w: World, slot: Slot, q: nat, asOf: Date) returns (step: Step)
    requires Inv(w) && 0 < q
    ensures step.Receive? && Enabled(w, step)
    ensures Apply(w, step).books == w.books
    ensures q <= UsableIn(Apply(w, step).stock, slot, asOf)
    ensures NoPoorer(w.stock, Apply(w, step).stock, asOf)
  {
    hide Inv, UsableIn, ShelfAt, NonNegative, NoPoorer;
    ShelfSane(w, slot);
    var quantity := q + ReservedAt(ShelfAt(w.stock.shelves, slot), None);
    step := Step.Receive(slot, None, PurchaseReceipt, quantity);
    PostRaises(w.stock, slot, q, asOf);
    Received(w, slot, quantity);
  }

  lemma {:induction false} ShelfSane(w: World, slot: Slot)
    requires Inv(w)
    ensures NonNegative(ShelfAt(w.stock.shelves, slot)) && 0 <= ReservedAt(ShelfAt(w.stock.shelves, slot), None)
  {
    assert NonNegative(ShelfAt(w.stock.shelves, slot));
  }

  lemma {:induction false} Received(w: World, slot: Slot, quantity: nat)
    requires 0 < quantity
    ensures var step := Step.Receive(slot, None, PurchaseReceipt, quantity);
            Enabled(w, step) && Apply(w, step) == w.(stock := ApplyPost(w.stock, slot, None, PurchaseReceipt, quantity))
  {
    hide ApplyPost;
  }

  lemma {:induction false} PostRaises(s: StockState, slot: Slot, q: nat, asOf: Date)
    requires NonNegative(ShelfAt(s.shelves, slot))
    ensures var quantity := q + ReservedAt(ShelfAt(s.shelves, slot), None);
            var after := ApplyPost(s, slot, None, PurchaseReceipt, quantity);
            q <= UsableIn(after, slot, asOf) && NoPoorer(s, after, asOf)
  {
    var shelf := ShelfAt(s.shelves, slot);
    var raised := Posted(shelf, None, q + ReservedAt(shelf, None));
    ReceiptRaises(shelf, q, asOf);
    hide NonNegative, UsableTotal, Posted, ReservedAt;
    forall at ensures UsableIn(s, at, asOf) <= UsableIn(StockState(s.shelves[slot := raised], s.ledger), at, asOf) {
      SetRaises(s, slot, raised, at, asOf);
    }
    SetRaises(s, slot, raised, slot, asOf);
    assert UsableIn(StockState(s.shelves[slot := raised], s.ledger), slot, asOf) == UsableTotal(raised, asOf);
  }

  lemma {:induction false} SetRaises(s: StockState, slot: Slot, raised: Shelf, at: Slot, asOf: Date)
    requires UsableTotal(ShelfAt(s.shelves, slot), asOf) <= UsableTotal(raised, asOf)
    ensures UsableIn(s, at, asOf) <= UsableIn(StockState(s.shelves[slot := raised], s.ledger), at, asOf)
  {
    hide UsableTotal;
    ShelfSet(s.shelves, slot, raised, at);
  }

  /** Stock arrives for the first `n` lines of an order. */
  lemma {:induction false} RestockLines(w: World, at: Id, lines: seq<Line>, n: nat,
                                        asOf: Date) returns (steps: seq<Step>)
    requires Inv(w) && AllPositive(lines) && n <= |lines|
    ensures RunOk(w, steps) && forall i :: 0 <= i < |steps| ==> steps[i].Receive?
    ensures After(w, steps).books == w.books
    ensures LinesStocked(After(w, steps).stock, at, lines, n, asOf)
  {
    if n == 0 {
      steps := [];
    } else {
      hide Inv, Enabled, Apply, UsableIn, Demand, RunOk, After, AllPositive, NoPoorer, LinesStocked;
      var before := RestockLines(w, at, lines, n - 1, asOf);
      var p := lines[n - 1].product;
      RunKeeps(w, before);
      LineDemanded(lines, n - 1);
      var step := Restock(After(w, before), Slot(at, p), Demand(lines, p), asOf);
      RunSnoc(w, before, step);
      steps := before + [step];
      OneMoreLine(After(w, before).stock, After(w, steps).stock, at, lines, n, asOf);
    }
  }

  lemma {:induction false} OneMoreLine(s: StockState, t: StockState, at: Id, lines: seq<Line>, n: nat, asOf: Date)
    requires 0 < n <= |lines| && LinesStocked(s, at, lines, n - 1, asOf) && NoPoorer(s, t, asOf)
    requires var p := lines[n - 1].product; Demand(lines, p) <= UsableIn(t, Slot(at, p), asOf)
    ensures LinesStocked(t, at, lines, n, asOf)
  {
    hide UsableIn, Demand;
  }

  lemma {:induction false} LineDemanded(lines: seq<Line>, i: nat)
    requires AllPositive(lines) && i < |lines|
    ensures 0 < Demand(lines, lines[i].product)
  {
    DemandMonotone(lines, i, lines[i].product);
    DemandSnoc(lines, i, lines[i].product);
    DemandMonotone(lines, i + 1, lines[i].product);
  }

  lemma {:induction false} LinesCovered(s: StockState, at: Id, lines: seq<Line>, asOf: Date)
    requires LinesStocked(s, at, lines, |lines|, asOf)
    ensures Enough(s, at, lines, asOf)
  {
    hide UsableIn;
    forall p ensures Demand(lines, p) <= UsableIn(s, Slot(at, p), asOf) {
      if i :| 0 <= i < |lines| && lines[i].product == p {
        assert Demand(lines, lines[i].product) <= UsableIn(s, Slot(at, lines[i].product), asOf);
      } else {
        NoDemand(lines, p);
        UsableSane(s, Slot(at, p), asOf);
      }
    }
  }

  /** Receipts of goods and dispatches only. */
  predicate Fulfils(steps: seq<Step>) {
    forall i :: 0 <= i < |steps| ==> steps[i].Receive? || steps[i].Dispatch?
  }

  /** One confirmed order ships once its goods have arrived. */
  lemma {:induction false} ShipOne(w: World, id: nat, date: Date, asOf: Date) returns (steps: seq<Step>)
    requires Inv(w) && CanDispatch(w.books, id)
    requires !Overtaken(w.books.numbers, w.books.codes, ShipScope(w.books.orders[id]))
    ensures RunOk(w, steps) && Fulfils(steps)
    ensures After(w, steps).books == ApplyOrderDispatch(w.books, id, date)
  {
    hide Inv, Enabled, Apply, RunOk, After, UsableIn, Demand, LinesStocked, Overtaken, Enough, ItemLines,
         DispatchEnabled,
         ApplyOrderDispatch, AllPositive;
    var order := w.books.orders[id];
    var lines := ItemLines(order.items);
    InvOrders(w);
    OrderIsPositive(w, id);
    var goods := RestockLines(w, order.warehouse, lines, |lines|, asOf);
    var stocked := After(w, goods);
    RunKeeps(w, goods);
    LinesCovered(stocked.stock, order.warehouse, lines, asOf);
    var ships := EnoughEnabled(stocked, id, asOf);
    DispatchApplies(stocked, id, date, asOf, ships);
    RunSnoc(w, goods, Step.Dispatch(id, date, asOf, ships));
    steps := goods + [Step.Dispatch(id, date, asOf, ships)];
  }

  lemma {:induction false} DispatchApplies(w: World, id: nat, date: Date, asOf: Date, ships: seq<DispatchPlan>)
    requires DispatchEnabled(w, id, asOf, ships)
    ensures var step := Step.Dispatch(id, date, asOf, ships);
            Enabled(w, step) && Apply(w, step).books == ApplyOrderDispatch(w.books, id, date)
  {
    hide DispatchLinesOk, CanIssue, ApplyOrderDispatch;
  }

  /** Shipping at one of the branches leaves them all able to ship. */
  lemma {:induction false} StillTogether(b: Books, id: nat, date: Date, branches: set<Option<Id>>)
    requires NumbersOk(b) && CanDispatch(b, id) && ShipTogether(b, branches) && b.orders[id].branch in branches
    ensures ShipTogether(ApplyOrderDispatch(b, id, date), branches)
  {
    var x, after := b.orders[id].branch, ApplyOrderDispatch(b, id, date);
    OrderBranchKnown(b, id);
    SequencesAre(b);
    hide NumbersOk, SequencesOk, Overtaken, PrintAlike, Advanced, ShippedItems, OrderInvoice;
    forall y | y in branches ensures !Overtaken(after.numbers, after.codes, Scope(InvoiceDocument, y)) {
      IssueLeavesApart(b.numbers, b.codes, InvoiceDocument, x, y);
    }
  }

  /** The orders from the `k`th on; the earlier ones have nothing pending. */
  lemma {:induction false} ShipFrom(w: World, customer: Id, branches: set<Option<Id>>,
                                    k: nat) returns (steps: seq<Step>)
    requires Inv(w) && ShipTogether(w.books, branches) && k <= |w.books.orders|
    requires forall i :: 0 <= i < k ==> PendingAt(w.books.orders[i], customer, branches) == 0
    ensures RunOk(w, steps) && Fulfils(steps)
    ensures CustomerOutstanding(After(w, steps).books.invoices, customer) == OwedAfter(w.books, customer, branches)
    decreases |w.books.orders| - k
  {
    hide Inv, Enabled, Apply, RunOk, After, ShipTogether, OwedAfter, CustomerOutstanding, PendingAt, CanDispatch,
         Overtaken,
         ApplyOrderDispatch, Fulfils;
    if k == |w.books.orders| {
      steps := [];
      NothingLeft(w, customer, branches);
    } else if PendingAt(w.books.orders[k], customer, branches) == 0 {
      steps := ShipFrom(w, customer, branches, k + 1);
    } else {
      CanShip(w.books, k, branches, customer);
      var first := ShipOne(w, k, 0, 0);
      RunKeeps(w, first);
      OthersWait(w.books, k, customer, branches);
      DispatchKeepsOwed(w.books, k, 0, customer, branches);
      InvNumbers(w);
      StillTogether(w.books, k, 0, branches);
      var rest := ShipFrom(After(w, first), customer, branches, k + 1);
      RunConcat(w, first, rest);
      FulfilsBoth(first, rest);
      steps := first + rest;
    }
  }

  lemma {:induction false} NothingLeft(w: World, customer: Id, branches: set<Option<Id>>)
    requires forall i :: 0 <= i < |w.books.orders| ==> PendingAt(w.books.orders[i], customer, branches) == 0
    ensures RunOk(w, []) && After(w, []) == w && Fulfils([])
    ensures OwedAfter(w.books, customer, branches) == CustomerOutstanding(w.books.invoices, customer)
  {
    NothingPending(w.books.orders, customer, branches);
  }

  lemma {:induction false} FulfilsBoth(first: seq<Step>, rest: seq<Step>)
    requires Fulfils(first) && Fulfils(rest)
    ensures Fulfils(first + rest)
  {
  }

  /** Whatever branches can ship together, some run of receipts and dispatches ships
      all the customer's confirmed orders there, and the customer then owes exactly
      what is owed now plus their totals. */
  lemma {:induction false} AllShip(w: World, customer: Id, branches: set<Option<Id>>) returns (steps: seq<Step>)
    requires Inv(w) && ShipTogether(w.books, branches)
    ensures RunOk(w, steps) && Fulfils(steps)
    ensures CustomerOutstanding(After(w, steps).books.invoices, customer) == OwedAfter(w.books, customer, branches)
  {
    steps := ShipFrom(w, customer, branches, 0);
  }

  lemma {:induction false} InvNumbers(w: World)
    requires Inv(w)
    ensures NumbersOk(w.books)
  {
  }

  lemma {:induction false} CanShip(b: Books, id: nat, branches: set<Option<Id>>, customer: Id)
    requires ShipTogether(b, branches) && id < |b.orders| && PendingAt(b.orders[id], customer, branches) != 0
    ensures CanDispatch(b, id) && b.orders[id].branch in branches
    ensures !Overtaken(b.numbers, b.codes, ShipScope(b.orders[id]))
  {
    hide Overtaken;
  }

  lemma {:induction false} OthersWait(b: Books, k: nat, customer: Id, branches: set<Option<Id>>)
    requires k < |b.orders| && forall i :: 0 <= i < k ==> PendingAt(b.orders[i], customer, branches) == 0
    ensures var orders := ApplyOrderDispatch(b, k, 0).orders;
            |orders| == |b.orders| && forall i :: 0 <= i < k + 1 ==> PendingAt(orders[i], customer, branches) == 0
  {
  }

  lemma {:induction false} FulfilmentWaits(w: World, steps: seq<Step>, customer: Id)
    requires RunOk(w, steps) && Fulfils(steps)
    ensures Waits(w, steps, customer)
    decreases |steps|
  {
    if steps != [] {
      hide Enabled, Apply;
      FulfilmentWaits(Apply(w, steps[0]), steps[1..], customer);
    }
  }

  // --- The exact condition ------------------------------------------------------------------------

  /** In any world the invariant allows, a customer who takes no new credit can never
      come to owe more than a limit if and only if what is owed, with the confirmed
      orders of any branches that can ship together, is within it. */
  lemma {:induction false} WithinLimitExactly(w: World, customer: Id, limit: int)
    requires Inv(w)
    ensures NeverExceeds(w, customer, limit) <==> WithinTogether(w.books, customer, limit)
  {
    if NeverExceeds(w, customer, limit) {
      WithinWhenNever(w, customer, limit);
    }
    if WithinTogether(w.books, customer, limit) {
      NeverWhenWithin(w, customer, limit);
    }
  }

  lemma {:induction false} WithinWhenNever(w: World, customer: Id, limit: int)
    requires Inv(w) && NeverExceeds(w, customer, limit)
    ensures WithinTogether(w.books, customer, limit)
  {
    hide Inv, RunOk, After, Waits, ShipTogether, OwedAfter, CustomerOutstanding, Fulfils, BranchesOf;
    forall branches | ShipTogether(w.books, branches) ensures OwedAfter(w.books, customer, branches) <= limit {
      var more := AllShip(w, customer, branches);
      FulfilmentWaits(w, more, customer);
    }
  }

  lemma {:induction false} NeverWhenWithin(w: World, customer: Id, limit: int)
    requires Inv(w) && WithinTogether(w.books, customer, limit)
    ensures NeverExceeds(w, customer, limit)
  {
    hide Inv, RunOk, After, Waits, ShipTogether, OwedAfter, CustomerOutstanding, BranchesOf;
    forall more | RunOk(w, more) && Waits(w, more, customer)
      ensures CustomerOutstanding(After(w, more).books.invoices, customer) <= limit
    {
      var branches := NoWorse(w, more, customer);
      OnlyTheirs(w.books, customer, branches);
    }
  }

  /** Branches without orders make no difference. */
  lemma {:induction false} OnlyTheirs(b: Books, customer: Id, branches: set<Option<Id>>)
    requires ShipTogether(b, branches)
    ensures ShipTogether(b, branches * BranchesOf(b.orders))
    ensures OwedAfter(b, customer, branches * BranchesOf(b.orders)) == OwedAfter(b, customer, branches)
  {
    hide Overtaken, PrintAlike, TotalAt, CustomerOutstanding;
    SameTotal(b.orders, customer, branches, branches * BranchesOf(b.orders));
  }

  lemma {:induction false} SameTotal(orders: seq<SalesOrder>, customer: Id, some: set<Option<Id>>,
                                     others: set<Option<Id>>)
    requires forall i :: 0 <= i < |orders| ==> (orders[i].branch in some <==> orders[i].branch in others)
    ensures TotalAt(orders, customer, some) == TotalAt(orders, customer, others)
  {
    if orders != [] {
      SameTotal(orders[..|orders| - 1], customer, some, others);
    }
  }

  /** Where all codes differ in their first eleven characters, exactly when what is owed
      and all the customer's confirmed orders together are within it; and this much is
      always enough. */
  lemma {:induction false} WithinLimitWithDistinctCodes(w: World, customer: Id, limit: int)
    requires Inv(w)
    ensures Exposure(w.books, customer) <= limit ==> NeverExceeds(w, customer, limit)
    ensures DistinctCodes(w.books.codes) ==>
              (NeverExceeds(w, customer, limit) <==> Exposure(w.books, customer) <= limit)
  {
    WithinLimitExactly(w, customer, limit);
    InvOrders(w);
    hide Inv, NeverExceeds, ShipTogether, TotalAt, ConfirmedTotal, CustomerOutstanding, DistinctCodes, BranchesOf;
    forall branches ensures OwedAfter(w.books, customer, branches) <= Exposure(w.books, customer) {
      TotalAtMonotone(w.books.orders, customer, branches, branches);
    }
    if DistinctCodes(w.books.codes) {
      var all := BranchesOf(w.books.orders);
      AllTogether(w.books, all);
      TotalAtMonotone(w.books.orders, customer, all, all);
    }
  }

  lemma {:induction false} AllTogether(b: Books, branches: set<Option<Id>>)
    requires DistinctCodes(b.codes)
    ensures ShipTogether(b, branches)
  {
    hide Overtaken;
    forall x | x in branches ensures !Overtaken(b.numbers, b.codes, Scope(InvoiceDocument, x)) {
      DistinctCodesNeverRefused(b.numbers, b.codes, Scope(InvoiceDocument, x));
    }
  }

  /** So in every reachable world. */
  lemma {:induction false} ReachableWithinLimit(steps: seq<Step>, customer: Id, limit: int)
    requires RunOk(NOTHING_YET, steps)
    ensures var w := After(NOTHING_YET, steps);
            && (NeverExceeds(w, customer, limit) <==> WithinTogether(w.books, customer, limit))
            && (Exposure(w.books, customer) <= limit ==> NeverExceeds(w, customer, limit))
            && (DistinctCodes(w.books.codes) ==>
                  (NeverExceeds(w, customer, limit) <==> Exposure(w.books, customer) <= limit))
  {
    StartsOk();
    RunKeeps(NOTHING_YET, steps);
    hide *;
    var w := After(NOTHING_YET, steps);
    WithinLimitExactly(w, customer, limit);
    WithinLimitWithDistinctCodes(w, customer, limit);
  }
}
