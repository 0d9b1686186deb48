/** The stock and document tables as one state machine: every way a committed call
    changes them, and what every step keeps. */
module Runs {
  import opened Prelude
  import Fefo
  import opened Stock
  import opened StockLines
  import opened Inventory
  import opened Documents
  import opened Numbering
  import opened Registers
  import opened Branches
  import opened Repairs
  import opened Settlement
  import opened Bookkeeping
  import opened Catalogue
  import opened SaleRules
  import opened OrderRules
  import MapSum

  datatype World = World(stock: StockState, books: Books)

  const NOTHING_YET := World(StockState(map[], []), EMPTY_BOOKS)

  /** One committed call. Product and customer rows are those it read; plans say
      which batches it chose. */
  datatype Step =
    | OpenBranch(branch: Id, code: string)
    | Receive(slot: Slot, batch: Fefo.BatchRef, kind: MovementType, quantity: int)
    | AdjustUp(slot: Slot, kind: MovementType, quantity: int)
    | AdjustDown(slot: Slot, kind: MovementType, quantity: int, asOf: Date, plan: seq<Fefo.Allocation>)
    | Transfer(source: Slot, target: Slot, batch: Fefo.BatchRef, quantity: int)
    | TakeIn(warranties: seq<Warranty>, intake: IntakeRequest)
    | ConsumePart(products: map<Id, Product>, job: nat, product: Id, quantity: int, asOf: Date,
                  plan: seq<Fefo.Allocation>)
    | ReturnPart(part: nat)
    | CompleteJob(job: nat, labourCharges: int)
    | PlaceOrder(products: map<Id, Product>, customers: map<Id, Customer>, order: OrderRequest,
                 plans: seq<seq<Fefo.Allocation>>)
    | Dispatch(id: nat, date: Date, asOf: Date, ships: seq<DispatchPlan>)
    | Sell(products: map<Id, Product>, customers: map<Id, Customer>, sale: SaleRequest,
           plans: seq<seq<Fefo.Allocation>>)
    | Collect(customers: map<Id, Customer>, customer: Id, amount: int, mode: PaymentMethod, paymentDate: Date,
              today: Date)

  /** A keyed sale whose key is already recorded. */
  predicate IsRetry(w: World, step: Step) {
    step.Sell? && step.sale.lines != [] && step.sale.key.Some? && step.sale.key.value in w.books.keys
  }

  ghost predicate OrderEnabled(w: World, products: map<Id, Product>, customers: map<Id, Customer>, req: OrderRequest,
                               plans: seq<seq<Fefo.Allocation>>) {
    && OrderOk(w.books, w.stock, products, customers, req)
    && (!req.isQuotation ==> ReserveLinesOk(w.stock, req.warehouse, LinesOf(req.lines), req.asOf, plans))
  }

  ghost predicate DispatchEnabled(w: World, id: nat, asOf: Date, ships: seq<DispatchPlan>) {
    && CanDispatch(w.books, id)
    && CanIssue(w.books, ShipScope(w.books.orders[id]))
    && DispatchLinesOk(w.stock, w.books.orders[id].warehouse, ItemLines(w.books.orders[id].items), asOf, ships)
  }

  ghost predicate SaleEnabled(w: World, products: map<Id, Product>, customers: map<Id, Customer>, req: SaleRequest,
                              plans: seq<seq<Fefo.Allocation>>) {
    && TendersOk(req.tenders)
    && SaleOk(w.books, w.stock, products, customers, req)
    && IssueLinesOk(w.stock, req.warehouse, LinesOf(req.lines), req.asOf, RetailSale, plans)
    && (req.key.Some? ==> req.key.value !in w.books.keys)
  }

  ghost predicate ConsumeEnabled(w: World, products: map<Id, Product>, job: nat, product: Id, q: int, asOf: Date,
                                 plan: seq<Fefo.Allocation>) {
    && job < |w.books.jobs| && product in products
    && IssueOk(w.stock, JobSlot(w.books, job, product), q, asOf, plan)
  }

  /** Goods come in as purchases, opening stock or customer returns; repair parts come
      back through their own call. */
  predicate IsReceiptType(kind: MovementType) {
    MovementDirection(kind) == 1 && !IsRepair(kind)
  }

  /** The call commits; retries of a recorded key do too, and do nothing. */
  ghost predicate Enabled(w: World, step: Step) {
    match step
    case OpenBranch(branch, code) => CanOpen(w.books.codes, branch, code)
    case Receive(slot, batch, kind, q) => IsReceiptType(kind) && 0 < q
    case AdjustUp(slot, kind, q) => IsAdjustmentType(kind) && MovementDirection(kind) == 0 && 0 < q
    case AdjustDown(slot, kind, q, asOf, plan) => IsAdjustmentType(kind) && IssueOk(w.stock, slot, q, asOf, plan)
    case Transfer(source, target, batch, q) => 0 < q <= OnHandAt(ShelfAt(w.stock.shelves, source), batch)
    case TakeIn(warranties, req) => CanIssue(w.books, JobScope(req))
    case ConsumePart(products, job, product, q, asOf, plan) => ConsumeEnabled(w, products, job, product, q, asOf, plan)
    case ReturnPart(part) => CanReturn(w.books, part)
    case CompleteJob(job, labour) => job < |w.books.jobs|
    case PlaceOrder(products, customers, req, plans) => OrderEnabled(w, products, customers, req, plans)
    case Dispatch(id, date, asOf, ships) => DispatchEnabled(w, id, asOf, ships)
    case Sell(products, customers, req, plans) => IsRetry(w, step) || SaleEnabled(w, products, customers, req, plans)
    case Collect(customers, customer, amount, mode, paymentDate, today) => 0 < amount && customer in customers
  }

  function AfterConsume(w: World, job: nat, product: Id, unitPrice: int, q: int, plan: seq<Fefo.Allocation>): World
    requires job < |w.books.jobs|
  {
    World(ApplyIssue(w.stock, JobSlot(w.books, job, product), RepairConsumption, plan),
          ApplyConsume(w.books, job, product, unitPrice, q))
  }

  function AfterReturn(w: World, part: nat): World
    requires CanReturn(w.books, part)
  {
    var p := w.books.parts[part];
    World(ApplyPost(w.stock, JobSlot(w.books, p.job, p.product), None, RepairReturn, p.quantity),
          ApplyReturn(w.books, part))
  }

  function AfterOrder(w: World, products: map<Id, Product>, req: OrderRequest, plans: seq<seq<Fefo.Allocation>>): World
    requires !req.isQuotation ==> |plans| == |req.lines|
  {
    World(if req.isQuotation then w.stock else ReserveLines(w.stock, req.warehouse, LinesOf(req.lines), plans),
          ApplyOrder(w.books, products, req))
  }

  function AfterDispatch(w: World, id: nat, date: Date, ships: seq<DispatchPlan>): World
    requires id < |w.books.orders| && |ships| == |w.books.orders[id].items|
  {
    var order := w.books.orders[id];
    World(DispatchLines(w.stock, order.warehouse, ItemLines(order.items), ships), ApplyOrderDispatch(w.books, id, date))
  }

  function AfterSale(w: World, products: map<Id, Product>, req: SaleRequest, plans: seq<seq<Fefo.Allocation>>): World
    requires |plans| == |req.lines|
  {
    World(IssueLines(w.stock, req.warehouse, LinesOf(req.lines), RetailSale, plans),
          ApplyRetailSale(w.books, products, req))
  }

  ghost function Apply(w: World, step: Step): World
    requires Enabled(w, step)
  {
    match step
    case OpenBranch(branch, code) => w.(books := ApplyOpen(w.books, branch, code))
    case Receive(slot, batch, kind, q) => w.(stock := ApplyPost(w.stock, slot, batch, kind, q))
    case AdjustUp(slot, kind, q) => w.(stock := ApplyPost(w.stock, slot, None, kind, q))
    case AdjustDown(slot, kind, q, asOf, plan) => w.(stock := ApplyIssue(w.stock, slot, kind, plan))
    case Transfer(source, target, batch, q) => w.(stock := ApplyTransfer(w.stock, source, target, batch, q))
    case TakeIn(warranties, req) => w.(books := ApplyIntake(w.books, warranties, req))
    case ConsumePart(products, job, product, q, asOf, plan) =>
      AfterConsume(w, job, product, products[product].retailPrice, q, plan)
    case ReturnPart(part) => AfterReturn(w, part)
    case CompleteJob(job, labour) => w.(books := ApplyComplete(w.books, job, labour))
    case PlaceOrder(products, customers, req, plans) => AfterOrder(w, products, req, plans)
    case Dispatch(id, date, asOf, ships) => AfterDispatch(w, id, date, ships)
    case Sell(products, customers, req, plans) => if IsRetry(w, step) then w else AfterSale(w, products, req, plans)
    case Collect(customers, customer, amount, mode, paymentDate, today) =>
      w.(books := ApplyReceipt(w.books, customer, amount, mode, paymentDate, today))
  }

  ghost predicate RunOk(w: World, steps: seq<Step>)
    decreases |steps|
  {
    steps == [] || (Enabled(w, steps[0]) && RunOk(Apply(w, steps[0]), steps[1..]))
  }

  ghost function After(w: World, steps: seq<Step>): World
    requires RunOk(w, steps)
    decreases |steps|
  {
    if steps == [] then w else After(Apply(w, steps[0]), steps[1..])
  }

  // --- The invariant --------------------------------------------------------------------------

  /** No two keys name one invoice. */
  ghost predicate KeysDistinct(b: Books) {
    forall j, k :: j in b.keys && k in b.keys && j != k ==> b.keys[j] != b.keys[k]
  }

  ghost predicate StockOk(w: World) {
    Projected(w.stock) && PoolIs(w.stock, w.books.orders) && OrdersOk(w.books.orders)
  }

  ghost predicate BooksOk(b: Books) {
    Reconciled(b) && KeysOk(b) && KeysDistinct(b) && NumbersOk(b)
  }

  /** What holds in every reachable world, transfers included. */
  ghost predicate Inv(w: World) {
    StockOk(w) && BooksOk(w.books) && WorkshopOk(w.books, w.stock.ledger)
  }

  lemma {:induction false} StartsOk()
    ensures Inv(NOTHING_YET) && AllCovered(NOTHING_YET.stock)
  {
    forall slot ensures HeldIn(NOTHING_YET.stock, slot) == 0 {
      MapSum.TotalZero(HeldCaps(map[]));
    }
  }

  // --- Stock steps ------------------------------------------------------------------------------

  lemma {:induction false} PostHolds(s: StockState, at: Slot, b: Fefo.BatchRef, kind: MovementType, delta: int,
                                     slot: Slot)
    ensures HeldIn(ApplyPost(s, at, b, kind, delta), slot) == HeldIn(s, slot)
  {
    var shelf := ShelfAt(s.shelves, at);
    PostEffect(shelf, b, delta);
    ShelfSet(s.shelves, at, Posted(shelf, b, delta), slot);
  }

  lemma {:induction false} PostStep(w: World, at: Slot, b: Fefo.BatchRef, kind: MovementType, q: int)
    requires StockOk(w) && 0 <= OnHandAt(ShelfAt(w.stock.shelves, at), b) + q
    ensures StockOk(w.(stock := ApplyPost(w.stock, at, b, kind, q)))
  {
    PostKeeps(w.stock, at, b, kind, q);
    hide Projected, OrdersOk, HeldIn, ConfirmedDemand, ApplyPost;
    forall slot ensures HeldIn(ApplyPost(w.stock, at, b, kind, q), slot) == ConfirmedDemand(w.books.orders, slot) {
      PostHolds(w.stock, at, b, kind, q, slot);
    }
  }

  lemma {:induction false} UpwardFits(s: StockState, at: Slot, b: Fefo.BatchRef, q: int)
    requires Projected(s) && 0 <= q
    ensures 0 <= OnHandAt(ShelfAt(s.shelves, at), b) + q
    ensures AllCovered(s) ==> ReservedAt(ShelfAt(s.shelves, at), b) <= OnHandAt(ShelfAt(s.shelves, at), b) + q
  {
    var shelf := ShelfAt(s.shelves, at);
    assert NonNegative(shelf);
    assert AllCovered(s) ==> Covered(shelf);
  }

  lemma {:induction false} IssueStep(w: World, at: Slot, kind: MovementType, q: int, asOf: Date,
                                     plan: seq<Fefo.Allocation>)
    requires StockOk(w) && IssueOk(w.stock, at, q, asOf, plan)
    ensures StockOk(w.(stock := ApplyIssue(w.stock, at, kind, plan)))
  {
    IssueKeeps(w.stock, at, kind, q, asOf, plan);
    hide Projected, OrdersOk, HeldIn, ConfirmedDemand, ApplyIssue, IssueOk;
    forall slot ensures HeldIn(ApplyIssue(w.stock, at, kind, plan), slot) == ConfirmedDemand(w.books.orders, slot) {
      IssueOneEffect(w.stock, at, kind, q, asOf, plan, slot);
    }
  }

  lemma {:induction false} TransferStep(w: World, source: Slot, target: Slot, b: Fefo.BatchRef, q: int)
    requires StockOk(w) && 0 < q <= OnHandAt(ShelfAt(w.stock.shelves, source), b)
    ensures StockOk(w.(stock := ApplyTransfer(w.stock, source, target, b, q)))
  {
    var out := w.(stock := ApplyPost(w.stock, source, b, TransferOut, -q));
    PostStep(w, source, b, TransferOut, -q);
    UpwardFits(out.stock, target, b, q);
    PostStep(out, target, b, TransferIn, q);
  }

  /** A transfer leaves every reservation covered exactly when it takes no more than
      the source row's unreserved stock, or puts it back on the same row. */
  lemma {:induction false} TransferCovers(s: StockState, source: Slot, target: Slot, b: Fefo.BatchRef, q: int)
    requires Projected(s) && AllCovered(s) && 0 < q <= OnHandAt(ShelfAt(s.shelves, source), b)
    ensures AllCovered(ApplyTransfer(s, source, target, b, q)) <==>
            source == target
            || q <= OnHandAt(ShelfAt(s.shelves, source), b) - ReservedAt(ShelfAt(s.shelves, source), b)
  {
    var out := ApplyPost(s, source, b, TransferOut, -q);
    var shelf := ShelfAt(s.shelves, source);
    PostCovers(s, source, b, TransferOut, -q);
    PostKeeps(s, source, b, TransferOut, -q);
    if AllCovered(out) {
      UpwardFits(out, target, b, q);
      PostCovers(out, target, b, TransferIn, q);
    } else if source == target {
      ThereAndBack(s, source, b, q);
    } else {
      StillUncovered(s, source, target, b, q);
    }
  }

  lemma {:induction false} ThereAndBack(s: StockState, at: Slot, b: Fefo.BatchRef, q: int)
    requires AllCovered(s)
    ensures AllCovered(ApplyTransfer(s, at, at, b, q))
  {
    var shelf := ShelfAt(s.shelves, at);
    var after := ApplyTransfer(s, at, at, b, q);
    assert Covered(shelf);
    assert after.shelves == s.shelves[at := Posted(Posted(shelf, b, -q), b, q)];
    RowCovers(shelf, b, OnHandAt(shelf, b), ReservedAt(shelf, b));
    assert Posted(Posted(shelf, b, -q), b, q) == shelf[b := Balance(OnHandAt(shelf, b), ReservedAt(shelf, b))];
    SetCovered(s, at, Posted(Posted(shelf, b, -q), b, q), after.ledger);
  }

  lemma {:induction false} StillUncovered(s: StockState, source: Slot, target: Slot, b: Fefo.BatchRef, q: int)
    requires source != target
    requires OnHandAt(ShelfAt(s.shelves, source), b) - q < ReservedAt(ShelfAt(s.shelves, source), b)
    ensures !AllCovered(ApplyTransfer(s, source, target, b, q))
  {
    var shelf := ShelfAt(s.shelves, source);
    var after := ApplyTransfer(s, source, target, b, q);
    assert ShelfAt(after.shelves, source) == Posted(shelf, b, -q);
    UncoveredRow(shelf, b, OnHandAt(shelf, b) - q, ReservedAt(shelf, b));
  }

  // --- Orders ------------------------------------------------------------------------------------

  lemma {:induction false} OrderStep(w: World, products: map<Id, Product>, customers: map<Id, Customer>,
                                     req: OrderRequest,
                                     plans: seq<seq<Fefo.Allocation>>)
    requires StockOk(w) && OrderEnabled(w, products, customers, req, plans)
    ensures StockOk(AfterOrder(w, products, req, plans))
    ensures AllCovered(w.stock) ==> AllCovered(AfterOrder(w, products, req, plans).stock)
  {
    var order := NewOrder(w.books, products, req);
    NewOrderOk(w.books, products, req);
    ItemLinesAre(products, req.lines, !req.isQuotation);
    OrdersSnoc(w.books.orders, order);
    if req.isQuotation {
      hide HeldIn, ConfirmedDemand, OrderOk, ReserveLinesOk, Projected, AllCovered;
      forall slot ensures HeldIn(w.stock, slot) == ConfirmedDemand(w.books.orders + [order], slot) {
        ConfirmedSnoc(w.books.orders, order, slot);
      }
    } else {
      var lines := LinesOf(req.lines);
      ReserveLinesKeeps(w.stock, req.warehouse, lines, req.asOf, plans);
      hide HeldIn, ConfirmedDemand, OrderOk, ReserveLines, ReserveLinesOk, Projected, AllCovered, ItemsOf, LinesOf,
           CartTotals;
      forall slot
        ensures HeldIn(ReserveLines(w.stock, req.warehouse, lines, plans), slot)
             == ConfirmedDemand(w.books.orders + [order], slot)
      {
        ReserveLinesEffect(w.stock, req.warehouse, lines, req.asOf, plans, slot);
        ConfirmedSnoc(w.books.orders, order, slot);
      }
    }
  }

  /** Shipping the order takes its demand out of the pool. */
  lemma {:induction false} DispatchedDemand(b: Books, id: nat, date: Date, slot: Slot)
    requires CanDispatch(b, id)
    ensures ConfirmedDemand(ApplyOrderDispatch(b, id, date).orders, slot)
         == ConfirmedDemand(b.orders, slot) - DemandAt(ItemLines(b.orders[id].items), b.orders[id].warehouse, slot)
  {
    hide ConfirmedDemand, ShippedItems, ItemLines, DemandAt;
    var order := b.orders[id];
    ConfirmedUpdate(b.orders, id, ShippedOrder(order, |b.invoices|), slot);
  }

  lemma {:induction false} DispatchStep(w: World, id: nat, date: Date, asOf: Date, ships: seq<DispatchPlan>)
    requires StockOk(w) && DispatchEnabled(w, id, asOf, ships)
    ensures StockOk(AfterDispatch(w, id, date, ships))
    ensures AllCovered(w.stock) ==> AllCovered(AfterDispatch(w, id, date, ships).stock)
  {
    assert |ships| == |w.books.orders[id].items|;
    hide HeldIn, ConfirmedDemand, DispatchLines, DispatchLinesOk, Projected, AllCovered, OrdersOk, ItemLines,
         ApplyOrderDispatch, DemandAt;
    var order := w.books.orders[id];
    var lines := ItemLines(order.items);
    var after := AfterDispatch(w, id, date, ships);
    DispatchLinesKeeps(w.stock, order.warehouse, lines, asOf, ships);
    DispatchKeepsOrders(w.books, id, date);
    forall slot ensures HeldIn(after.stock, slot) == ConfirmedDemand(after.books.orders, slot) {
      DispatchLinesHold(w.stock, order.warehouse, lines, asOf, ships, slot);
      DispatchedDemand(w.books, id, date, slot);
    }
  }

  lemma {:induction false} SaleStep(w: World, products: map<Id, Product>, customers: map<Id, Customer>,
                                    req: SaleRequest,
                                    plans: seq<seq<Fefo.Allocation>>)
    requires StockOk(w) && SaleEnabled(w, products, customers, req, plans)
    ensures StockOk(AfterSale(w, products, req, plans))
    ensures AllCovered(w.stock) ==> AllCovered(AfterSale(w, products, req, plans).stock)
  {
    var lines := LinesOf(req.lines);
    IssueLinesKeeps(w.stock, req.warehouse, lines, req.asOf, RetailSale, plans);
    hide HeldIn, ConfirmedDemand, IssueLines, IssueLinesOk, Projected, AllCovered, OrdersOk, LinesOf, SaleOk;
    forall slot
      ensures HeldIn(IssueLines(w.stock, req.warehouse, lines, RetailSale, plans), slot)
           == ConfirmedDemand(w.books.orders, slot)
    {
      IssueLinesEffect(w.stock, req.warehouse, lines, req.asOf, RetailSale, plans, slot);
    }
  }

  // --- Books -------------------------------------------------------------------------------------

  /** Which rows a step adds to the numbered tables. */
  lemma {:induction false} OrderNumbers(b: Books, products: map<Id, Product>, req: OrderRequest)
    requires NumbersOk(b) && CanIssue(b, ScopeOf(req))
    ensures NumbersOk(ApplyOrder(b, products, req))
  {
    hide NumbersOk, CanIssue, NextOf, Advanced, CartTotals, ItemsOf;
    OrderRowsSnoc(b.orders, NewOrder(b, products, req));
    NumbersIssue(b, ApplyOrder(b, products, req), ScopeOf(req));
  }

  lemma {:induction false} InvoiceNumbers(b: Books, after: Books, inv: Invoice)
    requires var scope := Scope(InvoiceDocument, inv.branch);
             && NumbersOk(b) && CanIssue(b, scope) && after.numbers == Advanced(b.numbers, b.codes, scope)
             && inv.number == NextOf(b.numbers, b.codes, scope)
    requires after.invoices == b.invoices + [inv] && after.codes == b.codes
    requires OrderRows(after.orders) == OrderRows(b.orders) && after.jobs == b.jobs
    ensures NumbersOk(after)
  {
    hide NumbersOk, CanIssue, NextOf, Advanced;
    InvoiceRowsSnoc(b.invoices, inv);
    NumbersIssue(b, after, Scope(InvoiceDocument, inv.branch));
  }

  lemma {:induction false} IntakeNumbers(b: Books, warranties: seq<Warranty>, req: IntakeRequest)
    requires NumbersOk(b) && CanIssue(b, JobScope(req))
    ensures NumbersOk(ApplyIntake(b, warranties, req))
  {
    hide NumbersOk, CanIssue, NextOf, Advanced, UnderWarranty;
    JobRowsSnoc(b.jobs, NewJob(b, warranties, req));
    NumbersIssue(b, ApplyIntake(b, warranties, req), JobScope(req));
  }

  /** Rows that keep their branch and number. */
  lemma {:induction false} SettlingKeepsNumbers(b: Books, allocations: seq<InvoiceAllocation>, after: Books)
    requires NumbersOk(b) && after.numbers == b.numbers && after.codes == b.codes
    requires after.invoices == Settled(b.invoices, allocations) && after.orders == b.orders && after.jobs == b.jobs
    ensures NumbersOk(after)
  {
    hide NumbersOk;
    SettledRows(b.invoices, allocations);
    NumbersKept(b, after);
  }

  lemma {:induction false} SettledRows(invoices: seq<Invoice>, allocations: seq<InvoiceAllocation>)
    ensures InvoiceRows(Settled(invoices, allocations)) == InvoiceRows(invoices)
  {
    hide To;
  }

  lemma {:induction false} BillingKeepsNumbers(b: Books, after: Books)
    requires NumbersOk(b) && after.numbers == b.numbers && after.codes == b.codes
    requires after.invoices == b.invoices && after.orders == b.orders && |after.jobs| == |b.jobs|
    requires forall j :: 0 <= j < |b.jobs| ==> after.jobs[j].branch == b.jobs[j].branch
                                               && after.jobs[j].number == b.jobs[j].number
    ensures NumbersOk(after)
  {
    hide NumbersOk;
    assert JobRows(after.jobs) == JobRows(b.jobs);
    NumbersKept(b, after);
  }

  lemma {:induction false} OrderBooks(b: Books, products: map<Id, Product>, req: OrderRequest)
    requires BooksOk(b) && CanIssue(b, ScopeOf(req))
    ensures BooksOk(ApplyOrder(b, products, req))
  {
    hide Reconciled, NumbersOk, CanIssue, NextOf, Advanced, CartTotals, ItemsOf;
    SameTables(b, ApplyOrder(b, products, req));
    OrderNumbers(b, products, req);
  }

  lemma {:induction false} DispatchTables(b: Books, id: nat, date: Date)
    requires CanDispatch(b, id)
    ensures var inv := OrderInvoice(b, b.orders[id], date);
            var after := ApplyOrderDispatch(b, id, date);
            && after.invoices == b.invoices + [inv] && after.keys == b.keys && after.codes == b.codes
            && after.numbers == Advanced(b.numbers, b.codes, Scope(InvoiceDocument, inv.branch))
            && inv.number == NextOf(b.numbers, b.codes, Scope(InvoiceDocument, inv.branch))
            && Scope(InvoiceDocument, inv.branch) == ShipScope(b.orders[id])
            && OrderRows(after.orders) == OrderRows(b.orders) && after.jobs == b.jobs
  {
    hide NextOf, Advanced, ShippedItems;
    OrderRowsSame(b.orders, id, ShippedOrder(b.orders[id], |b.invoices|));
  }

  lemma {:induction false} SaleTables(b: Books, products: map<Id, Product>, req: SaleRequest)
    ensures var inv := SaleInvoice(b, products, req);
            var after := ApplyRetailSale(b, products, req);
            && after.invoices == b.invoices + [inv] && after.codes == b.codes
            && after.keys == (if req.key.Some? then b.keys[req.key.value := |b.invoices|] else b.keys)
            && after.numbers == Advanced(b.numbers, b.codes, Scope(InvoiceDocument, inv.branch))
            && inv.number == NextOf(b.numbers, b.codes, Scope(InvoiceDocument, inv.branch))
            && Scope(InvoiceDocument, inv.branch) == InvoiceScope(req)
            && after.orders == b.orders && after.jobs == b.jobs
  {
    hide NextOf, Advanced, CartTotals, TenderTotal;
  }

  /** Old keys keep their invoices; a new one names the new invoice. */
  lemma {:induction false} KeysGrow(b: Books, after: Books, key: Option<string>)
    requires KeysOk(b) && KeysDistinct(b) && |after.invoices| == |b.invoices| + 1
    requires key.Some? ==> key.value !in b.keys
    requires after.keys == if key.Some? then b.keys[key.value := |b.invoices|] else b.keys
    ensures KeysOk(after) && KeysDistinct(after)
  {
  }

  lemma {:induction false} DispatchBooks(b: Books, id: nat, date: Date)
    requires BooksOk(b) && OrdersOk(b.orders) && CanDispatch(b, id) && CanIssue(b, ShipScope(b.orders[id]))
    ensures BooksOk(ApplyOrderDispatch(b, id, date))
  {
    hide Reconciled, OrdersOk, NumbersOk, KeysOk, KeysDistinct, ApplyOrderDispatch, OrderInvoice, NextOf, Advanced,
         CanIssue;
    DispatchKeepsBooks(b, id, date);
    DispatchTables(b, id, date);
    KeysGrow(b, ApplyOrderDispatch(b, id, date), None);
    InvoiceNumbers(b, ApplyOrderDispatch(b, id, date), OrderInvoice(b, b.orders[id], date));
  }

  lemma {:induction false} SaleBooks(w: World, products: map<Id, Product>, customers: map<Id, Customer>,
                                     req: SaleRequest, plans: seq<seq<Fefo.Allocation>>)
    requires BooksOk(w.books) && SaleEnabled(w, products, customers, req, plans)
    ensures BooksOk(ApplyRetailSale(w.books, products, req))
  {
    assert CanIssue(w.books, InvoiceScope(req));
    hide Reconciled, NumbersOk, KeysOk, KeysDistinct, SaleOk, IssueLinesOk, TendersOk, ApplyRetailSale, SaleInvoice,
         NextOf, Advanced, CanIssue;
    SaleKeepsBooks(w.books, w.stock, products, customers, req);
    SaleTables(w.books, products, req);
    KeysGrow(w.books, ApplyRetailSale(w.books, products, req), req.key);
    InvoiceNumbers(w.books, ApplyRetailSale(w.books, products, req), SaleInvoice(w.books, products, req));
  }

  lemma {:induction false} CollectBooks(b: Books, customer: Id, amount: int, mode: PaymentMethod, paymentDate: Date,
                                        today: Date)
    requires BooksOk(b) && 0 < amount
    ensures BooksOk(ApplyReceipt(b, customer, amount, mode, paymentDate, today))
  {
    ReceiptReconciles(b, customer, amount, mode, paymentDate, today);
    hide Reconciled, ReceiptAllocations, NumbersOk;
    SettlingKeepsNumbers(b, ReceiptAllocations(b.invoices, customer, amount),
                         ApplyReceipt(b, customer, amount, mode, paymentDate, today));
  }

  lemma {:induction false} OpenBooks(b: Books, branch: Id, code: string)
    requires BooksOk(b) && CanOpen(b.codes, branch, code)
    ensures BooksOk(ApplyOpen(b, branch, code))
  {
    hide Reconciled, NumbersOk;
    SameTables(b, ApplyOpen(b, branch, code));
    NumbersKeptByBranch(b, ApplyOpen(b, branch, code), branch, code);
  }

  // --- Repairs -------------------------------------------------------------------------------------

  lemma {:induction false} IntakeWorld(w: World, warranties: seq<Warranty>, req: IntakeRequest)
    requires Inv(w) && CanIssue(w.books, JobScope(req))
    ensures Inv(w.(books := ApplyIntake(w.books, warranties, req)))
  {
    hide Reconciled, NumbersOk, CanIssue, NextOf, Advanced, UnderWarranty, WorkshopOk, PoolIs, OrdersOk, Projected;
    IntakeKeeps(w.books, w.stock.ledger, warranties, req);
    IntakeNumbers(w.books, warranties, req);
    SameTables(w.books, ApplyIntake(w.books, warranties, req));
  }

  lemma {:induction false} ConsumeWorld(w: World, products: map<Id, Product>, job: nat, product: Id, q: int, asOf: Date,
                                        plan: seq<Fefo.Allocation>)
    requires Inv(w) && ConsumeEnabled(w, products, job, product, q, asOf, plan)
    ensures Inv(AfterConsume(w, job, product, products[product].retailPrice, q, plan))
  {
    var price := products[product].retailPrice;
    IssueStep(w, JobSlot(w.books, job, product), RepairConsumption, q, asOf, plan);
    ConsumeKeeps(w.books, w.stock, job, product, price, q, asOf, plan);
    hide Reconciled, NumbersOk, WorkshopOk, PoolIs, OrdersOk, Projected, IssueOk, ApplyIssue, LineValue;
    SameTables(w.books, ApplyConsume(w.books, job, product, price, q));
    BillingKeepsNumbers(w.books, ApplyConsume(w.books, job, product, price, q));
  }

  lemma {:induction false} ReturnWorld(w: World, part: nat)
    requires Inv(w) && CanReturn(w.books, part)
    ensures Inv(AfterReturn(w, part))
  {
    var p := w.books.parts[part];
    assert 0 < p.quantity;
    Upward(w, JobSlot(w.books, p.job, p.product), None, RepairReturn, p.quantity);
    ReturnKeeps(w.books, w.stock, part);
    hide Reconciled, NumbersOk, WorkshopOk, PoolIs, OrdersOk, Projected, ApplyPost, LineValue;
    SameTables(w.books, ApplyReturn(w.books, part));
    BillingKeepsNumbers(w.books, ApplyReturn(w.books, part));
  }

  lemma {:induction false} CompleteWorld(w: World, job: nat, labourCharges: int)
    requires Inv(w) && job < |w.books.jobs|
    ensures Inv(w.(books := ApplyComplete(w.books, job, labourCharges)))
  {
    CompleteKeeps(w.books, w.stock.ledger, job, labourCharges);
    hide Reconciled, NumbersOk, WorkshopOk, PoolIs, OrdersOk, Projected;
    SameTables(w.books, ApplyComplete(w.books, job, labourCharges));
    BillingKeepsNumbers(w.books, ApplyComplete(w.books, job, labourCharges));
  }

  /** Steps outside the workshop keep it. */
  lemma {:induction false} OutsideKeeps(w: World, after: World)
    requires Inv(w) && StockOk(after) && BooksOk(after.books)
    requires after.books.jobs == w.books.jobs && after.books.parts == w.books.parts
    requires NoRepairs(w.stock.ledger, after.stock.ledger)
    ensures Inv(after)
  {
    hide StockOk, BooksOk, WorkshopOk;
    WorkshopKept(w.books, after.books, w.stock.ledger, after.stock.ledger);
  }

  // --- Every step ----------------------------------------------------------------------------------

  /** Takes no more than the source row's unreserved stock. */
  predicate TransferSafe(w: World, step: Step) {
    step.Transfer? ==>
      || step.source == step.target
      || step.quantity <= OnHandAt(ShelfAt(w.stock.shelves, step.source), step.batch)
                          - ReservedAt(ShelfAt(w.stock.shelves, step.source), step.batch)
  }

  lemma {:induction false} StepKeeps(w: World, step: Step)
    requires Inv(w) && Enabled(w, step)
    ensures Inv(Apply(w, step))
  {
    hide Inv, OrderEnabled, DispatchEnabled, SaleEnabled, ConsumeEnabled, ApplyPost, ApplyIssue, ApplyTransfer, IssueOk,
         ShelfAt, OnHandAt, AfterOrder, AfterDispatch, AfterSale, AfterConsume, AfterReturn, CanIssue, ApplyReceipt,
         ApplyIntake, ApplyComplete, CanOpen, CanReturn;
    match step
    case OpenBranch(branch, code) => OpenWorld(w, branch, code);
    case Receive(slot, batch, kind, q) => PostWorld(w, slot, batch, kind, q);
    case AdjustUp(slot, kind, q) => PostWorld(w, slot, None, kind, q);
    case AdjustDown(slot, kind, q, asOf, plan) => IssueWorld(w, slot, kind, q, asOf, plan);
    case Transfer(source, target, batch, q) => TransferWorld(w, source, target, batch, q);
    case TakeIn(warranties, req) => IntakeWorld(w, warranties, req);
    case ConsumePart(products, job, product, q, asOf, plan) => ConsumeWorld(w, products, job, product, q, asOf, plan);
    case ReturnPart(part) => ReturnWorld(w, part);
    case CompleteJob(job, labour) => CompleteWorld(w, job, labour);
    case PlaceOrder(products, customers, req, plans) => OrderWorld(w, products, customers, req, plans);
    case Dispatch(id, date, asOf, ships) => DispatchWorld(w, id, date, asOf, ships);
    case Sell(products, customers, req, plans) =>
      if !IsRetry(w, step) {
        SaleWorld(w, products, customers, req, plans);
      }
    case Collect(_, customer, amount, mode, paymentDate, today) =>
      CollectWorld(w, customer, amount, mode, paymentDate, today);
  }

  lemma {:induction false} OpenWorld(w: World, branch: Id, code: string)
    requires Inv(w) && CanOpen(w.books.codes, branch, code)
    ensures Inv(w.(books := ApplyOpen(w.books, branch, code)))
  {
    OpenBooks(w.books, branch, code);
    hide BooksOk, PoolIs, OrdersOk, Projected, CanOpen;
    OutsideKeeps(w, w.(books := ApplyOpen(w.books, branch, code)));
  }

  lemma {:induction false} Upward(w: World, slot: Slot, b: Fefo.BatchRef, kind: MovementType, q: int)
    requires StockOk(w) && 0 < q
    ensures StockOk(w.(stock := ApplyPost(w.stock, slot, b, kind, q)))
  {
    UpwardFits(w.stock, slot, b, q);
    PostStep(w, slot, b, kind, q);
  }

  lemma {:induction false} PostWorld(w: World, slot: Slot, b: Fefo.BatchRef, kind: MovementType, q: int)
    requires Inv(w) && 0 < q && !IsRepair(kind)
    ensures Inv(w.(stock := ApplyPost(w.stock, slot, b, kind, q)))
  {
    Upward(w, slot, b, kind, q);
    hide StockOk, BooksOk, WorkshopOk;
    OutsideKeeps(w, w.(stock := ApplyPost(w.stock, slot, b, kind, q)));
  }

  lemma {:induction false} IssueWorld(w: World, slot: Slot, kind: MovementType, q: int, asOf: Date,
                                      plan: seq<Fefo.Allocation>)
    requires Inv(w) && IssueOk(w.stock, slot, q, asOf, plan) && !IsRepair(kind)
    ensures Inv(w.(stock := ApplyIssue(w.stock, slot, kind, plan)))
  {
    IssueStep(w, slot, kind, q, asOf, plan);
    hide StockOk, BooksOk, WorkshopOk, ApplyIssue, IssueOk;
    IssueNoRepairs(w.stock, slot, kind, plan);
    OutsideKeeps(w, w.(stock := ApplyIssue(w.stock, slot, kind, plan)));
  }

  lemma {:induction false} TransferWorld(w: World, source: Slot, target: Slot, b: Fefo.BatchRef, q: int)
    requires Inv(w) && 0 < q <= OnHandAt(ShelfAt(w.stock.shelves, source), b)
    ensures Inv(w.(stock := ApplyTransfer(w.stock, source, target, b, q)))
  {
    TransferStep(w, source, target, b, q);
    hide StockOk, BooksOk, WorkshopOk;
    OutsideKeeps(w, w.(stock := ApplyTransfer(w.stock, source, target, b, q)));
  }

  lemma {:induction false} OrderWorld(w: World, products: map<Id, Product>, customers: map<Id, Customer>,
                                      req: OrderRequest, plans: seq<seq<Fefo.Allocation>>)
    requires Inv(w) && OrderEnabled(w, products, customers, req, plans)
    ensures Inv(AfterOrder(w, products, req, plans))
  {
    OrderIssues(w, products, customers, req, plans);
    hide StockOk, BooksOk, WorkshopOk, OrderEnabled, ReserveLines, CanIssue, NoRepairs, NewOrder;
    OrderStep(w, products, customers, req, plans);
    OrderBooks(w.books, products, req);
    OutsideKeeps(w, AfterOrder(w, products, req, plans));
  }

  lemma {:induction false} OrderIssues(w: World, products: map<Id, Product>, customers: map<Id, Customer>,
                                       req: OrderRequest, plans: seq<seq<Fefo.Allocation>>)
    requires OrderEnabled(w, products, customers, req, plans)
    ensures CanIssue(w.books, ScopeOf(req)) && (!req.isQuotation ==> |plans| == |req.lines|)
    ensures NoRepairs(w.stock.ledger, AfterOrder(w, products, req, plans).stock.ledger)
  {
    assert CanIssue(w.books, ScopeOf(req));
    assert !req.isQuotation ==> |plans| == |req.lines|;
    hide OrderOk, CanIssue, ReserveLines, ReserveLinesOk, ApplyOrder;
    if !req.isQuotation {
      ReserveLinesNoMoves(w.stock, req.warehouse, LinesOf(req.lines), plans);
    }
  }

  lemma {:induction false} DispatchWorld(w: World, id: nat, date: Date, asOf: Date, ships: seq<DispatchPlan>)
    requires Inv(w) && DispatchEnabled(w, id, asOf, ships)
    ensures Inv(AfterDispatch(w, id, date, ships))
  {
    assert OrdersOk(w.books.orders);
    PlansCount(w.stock, w.books.orders[id].warehouse, ItemLines(w.books.orders[id].items), asOf, ships);
    hide StockOk, BooksOk, WorkshopOk, OrdersOk, DispatchLines, DispatchLinesOk, CanIssue, NoRepairs, OrderInvoice,
         Advanced,
         NextOf;
    DispatchStep(w, id, date, asOf, ships);
    DispatchBooks(w.books, id, date);
    DispatchLinesNoRepairs(w.stock, w.books.orders[id].warehouse, ItemLines(w.books.orders[id].items), ships);
    OutsideKeeps(w, AfterDispatch(w, id, date, ships));
  }

  lemma {:induction false} PlansCount(s: StockState, w: Id, lines: seq<Line>, asOf: Date, ships: seq<DispatchPlan>)
    requires DispatchLinesOk(s, w, lines, asOf, ships)
    ensures |ships| == |lines|
  {
  }

  lemma {:induction false} SaleWorld(w: World, products: map<Id, Product>, customers: map<Id, Customer>,
                                     req: SaleRequest, plans: seq<seq<Fefo.Allocation>>)
    requires Inv(w) && SaleEnabled(w, products, customers, req, plans)
    ensures Inv(AfterSale(w, products, req, plans))
  {
    hide StockOk, BooksOk, WorkshopOk, SaleEnabled, IssueLines, NoRepairs, ApplyRetailSale, LinesOf;
    SaleCounts(w, products, customers, req, plans);
    SaleStep(w, products, customers, req, plans);
    SaleBooks(w, products, customers, req, plans);
    SaleLeavesJobs(w.books, products, req);
    IssueLinesNoRepairs(w.stock, req.warehouse, LinesOf(req.lines), RetailSale, plans);
    OutsideKeeps(w, AfterSale(w, products, req, plans));
  }

  lemma {:induction false} SaleCounts(w: World, products: map<Id, Product>, customers: map<Id, Customer>,
                                      req: SaleRequest, plans: seq<seq<Fefo.Allocation>>)
    requires SaleEnabled(w, products, customers, req, plans)
    ensures |plans| == |req.lines|
  {
    hide SaleOk, TendersOk;
  }

  lemma {:induction false} SaleLeavesJobs(b: Books, products: map<Id, Product>, req: SaleRequest)
    ensures ApplyRetailSale(b, products, req).jobs == b.jobs && ApplyRetailSale(b, products, req).parts == b.parts
  {
  }

  lemma {:induction false} CollectWorld(w: World, customer: Id, amount: int, mode: PaymentMethod, paymentDate: Date,
                                        today: Date)
    requires Inv(w) && 0 < amount
    ensures Inv(w.(books := ApplyReceipt(w.books, customer, amount, mode, paymentDate, today)))
  {
    CollectBooks(w.books, customer, amount, mode, paymentDate, today);
    hide BooksOk, PoolIs, OrdersOk, Projected, WorkshopOk;
    OutsideKeeps(w, w.(books := ApplyReceipt(w.books, customer, amount, mode, paymentDate, today)));
  }

  /** Every step leaves every reservation covered, except a transfer that takes
      reserved stock, which never does. */
  lemma {:induction false} StepCovers(w: World, step: Step)
    requires Inv(w) && AllCovered(w.stock) && Enabled(w, step)
    ensures AllCovered(Apply(w, step).stock) <==> TransferSafe(w, step)
  {
    assert Projected(w.stock);
    hide StockOk, BooksOk, WorkshopOk, OrderEnabled, DispatchEnabled, SaleEnabled, ApplyPost, ApplyIssue, ApplyTransfer,
         IssueOk, ShelfAt, OnHandAt, ReservedAt, Projected, AllCovered, CanIssue, AfterReturn, CanReturn;
    match step
    case Receive(slot, batch, kind, q) => UpwardCovers(w.stock, slot, batch, kind, q);
    case AdjustUp(slot, kind, q) => UpwardCovers(w.stock, slot, None, kind, q);
    case AdjustDown(slot, kind, q, asOf, plan) => IssueKeeps(w.stock, slot, kind, q, asOf, plan);
    case Transfer(source, target, batch, q) => TransferCovers(w.stock, source, target, batch, q);
    case ConsumePart(_, job, product, q, asOf, plan) =>
      IssueKeeps(w.stock, JobSlot(w.books, job, product), RepairConsumption, q, asOf, plan);
    case ReturnPart(part) => ReturnCovers(w, part);
    case PlaceOrder(products, customers, req, plans) => OrderStep(w, products, customers, req, plans);
    case Dispatch(id, date, asOf, ships) => DispatchStep(w, id, date, asOf, ships);
    case Sell(products, customers, req, plans) =>
      if !IsRetry(w, step) {
        SaleStep(w, products, customers, req, plans);
      }
    case _ =>
  }

  lemma {:induction false} ReturnCovers(w: World, part: nat)
    requires Projected(w.stock) && WorkshopOk(w.books, w.stock.ledger) && AllCovered(w.stock)
    requires CanReturn(w.books, part)
    ensures AllCovered(AfterReturn(w, part).stock)
  {
    var p := w.books.parts[part];
    assert 0 < p.quantity;
    UpwardCovers(w.stock, JobSlot(w.books, p.job, p.product), None, RepairReturn, p.quantity);
  }

  lemma {:induction false} UpwardCovers(s: StockState, slot: Slot, b: Fefo.BatchRef, kind: MovementType, q: int)
    requires Projected(s) && AllCovered(s) && 0 < q
    ensures AllCovered(ApplyPost(s, slot, b, kind, q))
  {
    UpwardFits(s, slot, b, q);
    PostCovers(s, slot, b, kind, q);
  }
}
