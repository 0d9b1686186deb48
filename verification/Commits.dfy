/** Every committed service call is one step of the state machine, and a refused one
    is no step at all: what Runs and Guarantees say of runs, they say of any
    sequence of calls. */
module Commits {
  import opened Prelude
  import Fefo
  import opened Stock
  import opened StockLines
  import opened Fulfilment
  import opened Inventory
  import opened Documents
  import opened Persistence
  import opened Numbering
  import opened Registers
  import opened Branches
  import opened Repairs
  import opened Bookkeeping
  import opened Catalogue
  import opened SaleRules
  import opened OrderRules
  import opened Runs
  import Sales
  import Wholesale
  import opened Progress
  import Collections
  import ServiceJobs

  class Backend {
    const db: Database
    const repo: InventoryRepository
    const inventory: InventoryService
    const sales: Sales.SalesService
    const wholesale: Wholesale.WholesaleService
    const collections: Collections.CollectionsService
    const serviceJobs: ServiceJobs.ServiceJobService
    const branches: BranchService

    constructor ()
      ensures Valid() && fresh(db) && fresh(repo)
      ensures View() == NOTHING_YET
    {
      var tables := new Database();
      var stock := new InventoryRepository();
      db, repo := tables, stock;
      inventory := new InventoryService(stock);
      sales := new Sales.SalesService(tables, stock);
      wholesale := new Wholesale.WholesaleService(tables, stock);
      collections := new Collections.CollectionsService(tables);
      serviceJobs := new ServiceJobs.ServiceJobService(tables, stock);
      branches := new BranchService(tables);
      new;
      StartsOk();
    }

    function View(): World
      reads db, repo
    {
      World(repo.View(), db.View())
    }

    ghost predicate Wired() {
      && inventory.repo == repo
      && sales.db == db && sales.inventory.repo == repo && sales.Wired()
      && wholesale.db == db && wholesale.inventory.repo == repo && wholesale.Wired()
      && collections.db == db && collections.Wired()
      && serviceJobs.db == db && serviceJobs.inventory.repo == repo && serviceJobs.Wired()
      && branches.db == db
    }

    ghost predicate Valid()
      reads db, repo
    {
      Wired() && Inv(View())
    }

    method OpenBranch(branch: Id, code: string) returns (ok: bool)
      requires Valid() && branch !in db.codes
      modifies db, repo
      ensures Valid()
      ensures Committed(old(View()), View(), Step.OpenBranch(branch, code), ok)
      ensures ok <==> 1 <= |code| <= 20 && code !in old(db.codes).Values
    {
      ghost var w := View();
      var r := branches.CreateBranch(branch, code);
      ok := r.Ok?;
      if ok {
        StepKeeps(w, Step.OpenBranch(branch, code));
      }
    }

    method Receive(slot: Slot, batch: Fefo.BatchRef, kind: MovementType, quantity: int) returns (ok: bool)
      requires Valid() && IsReceiptType(kind)
      modifies db, repo
      ensures Valid()
      ensures Committed(old(View()), View(), Step.Receive(slot, batch, kind, quantity), ok)
      ensures ok <==> 0 < quantity
    {
      ghost var step := Step.Receive(slot, batch, kind, quantity);
      ghost var w := View();
      if 0 < quantity {
        UpwardFits(w.stock, slot, batch, quantity);
        StepKeeps(w, step);
      }
      var posted := inventory.PostMovement(slot, kind, quantity, batch, None);
      ok := posted.Ok?;
    }

    /** A correction, up or down; damage and expiry always reduce. */
    method Adjust(slot: Slot, signedQuantity: int, kind: MovementType, asOf: Date) returns (ok: bool, ghost step: Step)
      requires Valid()
      modifies db, repo
      ensures Valid()
      ensures Committed(old(View()), View(), step, ok)
      ensures var signed := if (kind.Damage? || kind.Expiry?) && 0 < signedQuantity then -signedQuantity
                            else signedQuantity;
              && (step == AdjustUp(slot, kind, signed)
                  || (step.AdjustDown? && step.slot == slot && step.kind == kind && step.quantity == -signed))
              && (ok <==> (kind.Adjustment? || kind.Reconciliation? || kind.Damage? || kind.Expiry?)
                          && (0 < signed || (signed < 0 && -signed <= SellableIn(old(repo.View()), slot, asOf))))
    {
      ghost var w := View();
      InvValid(w);
      SellableInIs(w.stock, slot, asOf);
      hide Inv, Projected, IssueOk, ApplyIssue, ApplyPost, UsableIn, SellableIn, Enabled, Apply, MovesOut, Reconciled,
           OrdersOk, WorkshopOk, NumbersOk, Committed;
      var r; ghost var signed;
      r, signed := inventory.CreateAdjustment(slot, signedQuantity, kind, asOf);
      ok := r.Ok?;
      step := AdjustUp(slot, kind, signed);
      if ok {
        AdjustCommits(w, slot, kind, signed, asOf, r.value);
        if signed < 0 {
          step := AdjustDown(slot, kind, -signed, asOf, r.value);
        }
        StepKeeps(w, step);
      } else {
        NoStep(w, step);
      }
    }

    method Transfer(fromWarehouse: Id, toWarehouse: Id, product: Id, quantity: int,
                    batch: Fefo.BatchRef) returns (ok: bool)
      requires Valid()
      modifies db, repo
      ensures Valid()
      ensures Committed(old(View()), View(),
                        Step.Transfer(Slot(fromWarehouse, product), Slot(toWarehouse, product), batch, quantity), ok)
      ensures ok <==> 0 < quantity <= OnHandAt(ShelfAt(old(repo.shelves), Slot(fromWarehouse, product)), batch)
    {
      ghost var w := View();
      var r := inventory.Transfer(fromWarehouse, toWarehouse, product, quantity, batch);
      ok := r.Ok?;
      if ok {
        StepKeeps(w, Step.Transfer(Slot(fromWarehouse, product), Slot(toWarehouse, product), batch, quantity));
      }
    }

    method TakeIn(warranties: seq<Warranty>, req: IntakeRequest) returns (ok: bool)
      requires Valid()
      modifies db, repo
      ensures Valid()
      ensures Committed(old(View()), View(), Step.TakeIn(warranties, req), ok)
      ensures ok <==> && KnownBranch(req.branch, old(db.codes))
                      && !Overtaken(old(db.numbers), old(db.codes), JobScope(req))
    {
      ghost var w := View();
      InvValid(w);
      IssuableExactly(w.books, JobScope(req));
      hide Inv, NumbersOk, CanIssue, Overtaken, WorkshopOk, Projected, Reconciled;
      var r := serviceJobs.CreateJob(warranties, req);
      ok := r.Ok?;
      if ok {
        StepKeeps(w, Step.TakeIn(warranties, req));
      }
    }

    method ConsumePart(products: map<Id, Product>, job: nat, product: Id, quantity: int, asOf: Date)
      returns (ok: bool, ghost step: Step)
      requires Valid()
      modifies db, repo
      ensures Valid()
      ensures Committed(old(View()), View(), step, ok)
      ensures step.ConsumePart? && step.job == job && step.product == product && step.quantity == quantity
      ensures ok <==> job < |old(db.jobs)| && product in products
                      && var slot := JobSlot(old(db.View()), job, product);
                         0 < quantity <= UsableIn(old(repo.View()), slot, asOf)
    {
      ghost var w := View();
      InvValid(w);
      hide Inv, WorkshopOk, Projected, Reconciled, IssueOk, ApplyIssue, ApplyConsume, UsableIn, Enabled, Apply;
      var r; ghost var plan;
      r, plan := serviceJobs.ConsumePart(products, job, product, quantity, asOf);
      ok := r.Ok?;
      step := Step.ConsumePart(products, job, product, quantity, asOf, plan);
      if ok {
        ConsumeCommits(w, View(), products, job, product, quantity, asOf, plan);
        StepKeeps(w, step);
      }
    }

    method ReturnPart(part: nat) returns (ok: bool)
      requires Valid()
      modifies db, repo
      ensures Valid()
      ensures Committed(old(View()), View(), Step.ReturnPart(part), ok)
      ensures ok <==> CanReturn(old(db.View()), part)
    {
      ghost var w := View();
      InvValid(w);
      hide Inv, WorkshopOk, Projected, Reconciled, ApplyPost, ApplyReturn;
      var r := serviceJobs.ReturnPart(part);
      ok := r.Ok?;
      if ok {
        StepKeeps(w, Step.ReturnPart(part));
      }
    }

    method CompleteJob(job: nat, labourCharges: int) returns (ok: bool)
      requires Valid()
      modifies db, repo
      ensures Valid()
      ensures Committed(old(View()), View(), Step.CompleteJob(job, labourCharges), ok)
      ensures ok <==> job < |old(db.jobs)|
    {
      ghost var w := View();
      InvValid(w);
      hide Inv, WorkshopOk, Projected, Reconciled, ApplyComplete;
      var r := serviceJobs.SetLabourAndComplete(job, labourCharges);
      ok := r.Ok?;
      if ok {
        StepKeeps(w, Step.CompleteJob(job, labourCharges));
      }
    }

    method PlaceOrder(products: map<Id, Product>, customers: map<Id, Customer>, req: OrderRequest)
      returns (ok: bool, ghost step: Step)
      requires Valid()
      modifies db, repo
      ensures Valid()
      ensures Committed(old(View()), View(), step, ok)
      ensures step.PlaceOrder? && step.order == req
      ensures ok <==> OrderOk(old(db.View()), old(repo.View()), products, customers, req)
    {
      ghost var w := View();
      var r; ghost var plans;
      InvValid(w);
      hide OrderOk, ReserveLinesOk, ReserveLines, ApplyOrder, Inv, Enabled, Apply;
      r, plans := wholesale.CreateOrder(products, customers, req);
      ok := r.Ok?;
      step := Step.PlaceOrder(products, customers, req, plans);
      if ok {
        OrderIsStep(w, View(), products, customers, req, plans);
        StepKeeps(w, step);
      }
    }

    /** A dispatch never fails in a release. While reservations are covered it goes
        through exactly when the expired part is covered and the invoice can be
        numbered; covered or not, whenever stock covers it all and the invoice can. */
    method Dispatch(id: nat, date: Date, asOf: Date) returns (r: Result<nat, Wholesale.WholesaleError>,
                    ghost step: Step)
      requires Valid()
      modifies db, repo
      ensures Valid()
      ensures Committed(old(View()), View(), step, r.Ok?)
      ensures step.Dispatch? && step.id == id
      ensures r != Err(Wholesale.CannotRelease)
      ensures CanDispatch(old(db.View()), id) ==>
                var order, s := old(db.orders)[id], old(repo.View());
                var numbered := !Overtaken(old(db.numbers), old(db.codes), ShipScope(order));
                && (AllCovered(s) ==> (r.Ok? <==> numbered && ExpiredIsCovered(s, order, asOf)))
                && (Enough(s, order.warehouse, ItemLines(order.items), asOf) ==> (r.Ok? <==> numbered))
    {
      ghost var w := View();
      InvValid(w);
      InvShips(w, id, asOf);
      hide Shippable, ExpiredIsCovered, DispatchLinesOk, DispatchLines, ApplyOrderDispatch, Inv, Enabled, Apply,
           AllCovered,
           OrdersOk, Projected, PoolHolds, Enough, CanIssue, Overtaken, Reconciled, WorkshopOk, NumbersOk;
      ghost var ships;
      r, ships := wholesale.DispatchAndInvoice(id, date, asOf);
      step := Step.Dispatch(id, date, asOf, ships);
      if r.Ok? {
        DispatchIsStep(w, View(), id, date, asOf, ships);
        StepKeeps(w, step);
      }
    }

    method Sell(products: map<Id, Product>, customers: map<Id, Customer>, req: SaleRequest) returns (ok: bool,
                ghost step: Step)
      requires Valid() && TendersOk(req.tenders)
      modifies db, repo
      ensures Valid()
      ensures Committed(old(View()), View(), step, ok)
      ensures step.Sell? && step.sale == req
      ensures ok <==> IsRetry(old(View()), step) || SaleOk(old(db.View()), old(repo.View()), products, customers, req)
    {
      ghost var w := View();
      var r; ghost var plans;
      r, plans := sales.CreateRetailInvoice(products, customers, req);
      ok := r.Ok?;
      step := Step.Sell(products, customers, req, plans);
      if ok {
        StepKeeps(w, step);
      }
    }

    method Collect(customers: map<Id, Customer>, customer: Id, amount: int, mode: PaymentMethod, paymentDate: Date,
                   today: Date)
      returns (ok: bool)
      requires Valid()
      modifies db, repo
      ensures Valid()
      ensures Committed(old(View()), View(), Step.Collect(customers, customer, amount, mode, paymentDate, today), ok)
      ensures ok <==> 0 < amount && customer in customers
    {
      ghost var w := View();
      InvValid(w);
      hide Inv, Reconciled, ApplyReceipt, Enabled, Apply;
      var r := collections.ReceivePayment(customers, customer, amount, mode, paymentDate, today);
      ok := r.Ok?;
      if ok {
        CollectCommits(w, customers, customer, amount, mode, paymentDate, today);
        StepKeeps(w, Step.Collect(customers, customer, amount, mode, paymentDate, today));
      }
    }
  }

  /** A call that succeeds is exactly one enabled step; one that fails changes
      nothing. */
  ghost predicate Committed(before: World, after: World, step: Step, ok: bool) {
    if ok then Enabled(before, step) && after == Apply(before, step) else after == before
  }

  lemma {:induction false} NoStep(w: World, step: Step)
    ensures Committed(w, w, step, false)
  {
  }

  lemma {:induction false} InvValid(w: World)
    requires Inv(w)
    ensures Projected(w.stock) && OrdersOk(w.books.orders) && Reconciled(w.books)
    ensures WorkshopOk(w.books, w.stock.ledger) && NumbersOk(w.books)
  {
  }

  lemma {:induction false} InvShips(w: World, id: nat, asOf: Date)
    requires Inv(w)
    ensures CanDispatch(w.books, id) ==>
              var order := w.books.orders[id];
              && (Shippable(w.stock, order.warehouse, ItemLines(order.items), asOf)
                  <==> ExpiredIsCovered(w.stock, order, asOf))
              && PoolHolds(w.stock, order.warehouse, ItemLines(order.items))
              && (CanIssue(w.books, ShipScope(order)) <==> !Overtaken(w.books.numbers, w.books.codes, ShipScope(order)))
  {
    if CanDispatch(w.books, id) {
      assert NumbersOk(w.books);
      hide WorkshopOk, Reconciled, NumbersOk, CanIssue, Overtaken;
      ConfirmedShipsExactly(w.stock, w.books.orders, id, asOf);
      PoolHoldsOrder(w.stock, w.books.orders, id);
      ShipNumberFree(w.books, id);
    }
  }

  lemma {:induction false} AdjustCommits(w: World, slot: Slot, kind: MovementType, signed: int, asOf: Date,
                                         plan: seq<Fefo.Allocation>)
    requires IsAdjustmentType(kind)
    requires (0 < signed && MovementDirection(kind) == 0) || (signed < 0 && IssueOk(w.stock, slot, -signed, asOf, plan))
    ensures if 0 < signed
            then Committed(w, w.(stock := ApplyPost(w.stock, slot, None, kind, signed)),
                           AdjustUp(slot, kind, signed), true)
            else Committed(w, w.(stock := ApplyIssue(w.stock, slot, kind, plan)),
                           AdjustDown(slot, kind, -signed, asOf, plan), true)
  {
    hide IssueOk, ApplyIssue, ApplyPost;
  }

  lemma {:induction false} ConsumeCommits(w: World, after: World, products: map<Id, Product>, job: nat, product: Id,
                                          q: int,
                                          asOf: Date, plan: seq<Fefo.Allocation>)
    requires ConsumeEnabled(w, products, job, product, q, asOf, plan)
    requires after == AfterConsume(w, job, product, products[product].retailPrice, q, plan)
    ensures Committed(w, after, Step.ConsumePart(products, job, product, q, asOf, plan), true)
  {
    hide IssueOk, ApplyIssue, ApplyConsume;
  }

  lemma {:induction false} CollectCommits(w: World, customers: map<Id, Customer>, customer: Id, amount: int,
                                          mode: PaymentMethod, paymentDate: Date, today: Date)
    requires 0 < amount && customer in customers
    ensures Committed(w, w.(books := ApplyReceipt(w.books, customer, amount, mode, paymentDate, today)),
                      Step.Collect(customers, customer, amount, mode, paymentDate, today), true)
  {
    hide ApplyReceipt;
  }

  lemma {:induction false} OrderIsStep(w: World, after: World, products: map<Id, Product>, customers: map<Id, Customer>,
                                       req: OrderRequest, plans: seq<seq<Fefo.Allocation>>)
    requires OrderOk(w.books, w.stock, products, customers, req)
    requires after.books == ApplyOrder(w.books, products, req)
    requires if req.isQuotation then after.stock == w.stock
             else ReserveLinesOk(w.stock, req.warehouse, LinesOf(req.lines), req.asOf, plans)
                  && after.stock == ReserveLines(w.stock, req.warehouse, LinesOf(req.lines), plans)
    ensures Committed(w, after, Step.PlaceOrder(products, customers, req, plans), true)
  {
    assert !req.isQuotation ==> |plans| == |req.lines|;
    hide OrderOk, ReserveLines, ReserveLinesOk, LinesOf, ApplyOrder, Enabled, Apply;
    assert OrderEnabled(w, products, customers, req, plans) && after == AfterOrder(w, products, req, plans);
    OrderCommits(w, products, customers, req, plans);
  }

  lemma {:induction false} OrderCommits(w: World, products: map<Id, Product>, customers: map<Id, Customer>,
                                        req: OrderRequest, plans: seq<seq<Fefo.Allocation>>)
    requires OrderEnabled(w, products, customers, req, plans) && (!req.isQuotation ==> |plans| == |req.lines|)
    ensures Committed(w, AfterOrder(w, products, req, plans), Step.PlaceOrder(products, customers, req, plans), true)
  {
    hide OrderEnabled, AfterOrder;
  }

  lemma {:induction false} DispatchIsStep(w: World, after: World, id: nat, date: Date, asOf: Date,
                                          ships: seq<DispatchPlan>)
    requires CanDispatch(w.books, id) && CanIssue(w.books, ShipScope(w.books.orders[id]))
    requires var order := w.books.orders[id];
             && after.books == ApplyOrderDispatch(w.books, id, date)
             && DispatchLinesOk(w.stock, order.warehouse, ItemLines(order.items), asOf, ships)
             && after.stock == DispatchLines(w.stock, order.warehouse, ItemLines(order.items), ships)
    ensures Committed(w, after, Step.Dispatch(id, date, asOf, ships), true)
  {
    PlansCount(w.stock, w.books.orders[id].warehouse, ItemLines(w.books.orders[id].items), asOf, ships);
    hide DispatchLines, DispatchLinesOk, ItemLines, ApplyOrderDispatch, Enabled, Apply;
    assert DispatchEnabled(w, id, asOf, ships) && after == AfterDispatch(w, id, date, ships);
    DispatchCommits(w, id, date, asOf, ships);
  }

  lemma {:induction false} DispatchCommits(w: World, id: nat, date: Date, asOf: Date, ships: seq<DispatchPlan>)
    requires DispatchEnabled(w, id, asOf, ships) && id < |w.books.orders| && |ships| == |w.books.orders[id].items|
    ensures Committed(w, AfterDispatch(w, id, date, ships), Step.Dispatch(id, date, asOf, ships), true)
  {
    hide DispatchEnabled, AfterDispatch;
  }
}
