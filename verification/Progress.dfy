/** Whenever the totals allow it, some choice of batches lets a dispatch through:
    progress for confirmed orders (inventory/service.py:151-191, 296-325,
    sales/wholesale_service.py:251-269). */
module Progress {
  import Fefo
  import opened Stock
  import opened StockLines
  import opened Fulfilment
  import opened Inventory
  import opened Documents
  import opened Registers
  import opened OrderRules
  import opened Repairs
  import opened Runs
  import opened Guarantees

  /** Some order of the rows with something in them. */
  lemma {:induction false} RowsExist(caps: map<Fefo.BatchRef, int>) returns (rows: seq<Fefo.BatchAvailability>)
    requires forall b :: b in caps ==> 0 <= caps[b]
    ensures Fefo.Lists(rows, caps)
    decreases |caps|
  {
    if caps == map[] {
      return [];
    }
    var b :| b in caps;
    var rest := caps - {b};
    var front := RowsExist(rest);
    rows := if 0 < caps[b] then front + [Fefo.BatchAvailability(b, caps[b])] else front;
    assert forall c :: c in caps && c != b ==> c in rest && rest[c] == caps[c];
  }

  lemma {:induction false} IssuePlanExists(s: StockState, slot: Slot, q: int,
                                           asOf: Date) returns (plan: seq<Fefo.Allocation>)
    requires 0 < q <= UsableIn(s, slot, asOf)
    ensures IssueOk(s, slot, q, asOf, plan)
  {
    var caps := AvailableCaps(ShelfAt(s.shelves, slot));
    var rows := RowsExist(caps);
    Fefo.FefoPlanIsEarliestFirst(rows, caps, q, asOf);
    plan := Fefo.FefoPlan(rows, q, asOf);
  }

  lemma {:induction false} ReleasePlanExists(s: StockState, slot: Slot, q: int) returns (plan: seq<Fefo.Allocation>)
    requires Projected(s) && 0 < q <= HeldIn(s, slot)
    ensures ReleaseOk(s, slot, q, plan)
  {
    assert NonNegative(ShelfAt(s.shelves, slot));
    var rows := RowsExist(HeldCaps(ShelfAt(s.shelves, slot)));
    ReservedWalk(s, slot, rows, q);
    plan := Fefo.Walk(Fefo.SortByExpiry(rows), q);
  }

  lemma {:induction false} ShipPlanExists(s: StockState, slot: Slot, q: int, asOf: Date) returns (plan: DispatchPlan)
    requires Projected(s) && AllCovered(s) && 0 < q && Ships(s, slot, q, asOf)
    ensures ReleaseOk(s, slot, q, plan.release)
    ensures IssueOk(ApplyRelease(s, slot, plan.release), slot, q, asOf, plan.issue)
  {
    var release := ReleasePlanExists(s, slot, q);
    ReleasedEnough(s, slot, q, asOf, release);
    var issue := IssuePlanExists(ApplyRelease(s, slot, release), slot, q, asOf);
    plan := DispatchPlan(release, issue);
  }

  /** Line by line, a shippable document ships. */
  lemma {:induction false} ShipPlansExist(s: StockState, w: Id, lines: seq<Line>,
                                          asOf: Date) returns (plans: seq<DispatchPlan>)
    requires Projected(s) && AllCovered(s) && AllPositive(lines) && Shippable(s, w, lines, asOf)
    ensures DispatchLinesOk(s, w, lines, asOf, plans)
  {
    hide *;
    var t := s;
    plans := [];
    DispatchingNone(s, w, lines, asOf);
    for i := 0 to |lines|
      invariant Dispatching(s, t, w, lines, i, asOf, plans)
    {
      NextIsPositive(lines, i);
      var p := lines[i].product;
      DispatchLeft(s, t, w, lines, i, asOf, plans, p);
      HeldSane(s, Slot(w, p), asOf);
      ShippableShipsPrefix(s, w, lines, i + 1, p, asOf);
      NextShips(s, t, w, lines, i, asOf);
      var plan := ShipPlanExists(t, Slot(w, p), lines[i].quantity, asOf);
      DispatchingNext(s, t, w, lines, i, asOf, plans, plan);
      t := DispatchOne(t, Slot(w, p), plan);
      plans := plans + [plan];
    }
    ShippedMeansShippable(s, t, w, lines, asOf, plans);
  }

  /** The same in any world, for a document that both the pool and unreserved stock
      cover. */
  lemma {:induction false} EnoughPlansExist(s: StockState, w: Id, lines: seq<Line>, asOf: Date)
    returns (plans: seq<DispatchPlan>)
    requires Projected(s) && AllPositive(lines) && PoolHolds(s, w, lines) && Enough(s, w, lines, asOf)
    ensures DispatchLinesOk(s, w, lines, asOf, plans)
  {
    hide *;
    var t := s;
    plans := [];
    DispatchingNone(s, w, lines, asOf);
    for i := 0 to |lines|
      invariant Dispatching(s, t, w, lines, i, asOf, plans)
    {
      var slot, q := Slot(w, lines[i].product), lines[i].quantity;
      DispatchHeld(s, t, w, lines, i, asOf, plans);
      NeverOverReleases(s, t, w, lines, i, asOf, plans);
      EnoughShips(s, t, w, lines, i, asOf, plans);
      var release := ReleasePlanExists(t, slot, q);
      ReleaseOneHolds(t, slot, q, asOf, release, slot);
      var issue := IssuePlanExists(ApplyRelease(t, slot, release), slot, q, asOf);
      var plan := DispatchPlan(release, issue);
      DispatchingNext(s, t, w, lines, i, asOf, plans, plan);
      t := DispatchOne(t, slot, plan);
      plans := plans + [plan];
    }
    DispatchingAll(s, t, w, lines, asOf, plans);
  }

  lemma {:induction false} DispatchingAll(s: StockState, t: StockState, w: Id, lines: seq<Line>, asOf: Date,
                                          plans: seq<DispatchPlan>)
    requires Dispatching(s, t, w, lines, |lines|, asOf, plans)
    ensures DispatchLinesOk(s, w, lines, asOf, plans)
  {
    assert lines[..|lines|] == lines;
  }

  lemma {:induction false} NextIsPositive(lines: seq<Line>, i: nat)
    requires AllPositive(lines) && i < |lines|
    ensures 0 < lines[i].quantity
  {
  }

  lemma {:induction false} OrderIsPositive(w: World, id: nat)
    requires OrdersOk(w.books.orders) && id < |w.books.orders|
    ensures AllPositive(ItemLines(w.books.orders[id].items))
  {
    assert OrderRowOk(w.books.orders[id]);
  }

  /** Whether the invoice of a confirmed order can be numbered. */
  lemma {:induction false} ShipNumberFree(b: Books, id: nat)
    requires NumbersOk(b) && CanDispatch(b, id)
    ensures CanIssue(b, ShipScope(b.orders[id])) <==> !Overtaken(b.numbers, b.codes, ShipScope(b.orders[id]))
  {
    hide NumbersOk, CanIssue, Overtaken;
    OrderBranchKnown(b, id);
    IssuableExactly(b, ShipScope(b.orders[id]));
  }

  /** From any world reached without a transfer taking reserved stock, a confirmed
      order can be dispatched exactly when, product by product, unreserved stock can
      stand in for the reserved part that has expired by then, and no branch that
      prints the same prefix has issued more invoices: the pool itself never runs out,
      however releases and issues walk the batches. */
  lemma {:induction false} DispatchProgress(steps: seq<Step>, id: nat, asOf: Date)
    requires RunOk(NOTHING_YET, steps) && SafeRun(NOTHING_YET, steps)
    requires CanDispatch(After(NOTHING_YET, steps).books, id)
    ensures var w := After(NOTHING_YET, steps);
            (exists ships :: DispatchEnabled(w, id, asOf, ships)) <==>
            && ExpiredIsCovered(w.stock, w.books.orders[id], asOf)
            && !Overtaken(w.books.numbers, w.books.codes, ShipScope(w.books.orders[id]))
  {
    StartsOk();
    RunKeeps(NOTHING_YET, steps);
    SafeRunCovers(NOTHING_YET, steps);
    var w := After(NOTHING_YET, steps);
    var order := w.books.orders[id];
    var lines := ItemLines(order.items);
    OrderIsPositive(w, id);
    ConfirmedShipsExactly(w.stock, w.books.orders, id, asOf);
    assert NumbersOk(w.books);
    ShipNumberFree(w.books, id);
    hide RunOk, After, SafeRun, Shippable, ExpiredIsCovered, Projected, AllCovered, PoolIs, OrdersOk, BooksOk,
         ItemLines,
         DispatchLinesOk, NumbersOk, CanIssue, Overtaken, WorkshopOk;
    if Shippable(w.stock, order.warehouse, lines, asOf) && CanIssue(w.books, ShipScope(order)) {
      var ships := ShipPlansExist(w.stock, order.warehouse, lines, asOf);
      assert DispatchEnabled(w, id, asOf, ships);
    }
    if ships :| DispatchEnabled(w, id, asOf, ships) {
      PlansShip(w.stock, order.warehouse, lines, asOf, ships);
    }
  }

  lemma {:induction false} PlansShip(s: StockState, w: Id, lines: seq<Line>, asOf: Date, ships: seq<DispatchPlan>)
    requires Projected(s) && AllCovered(s) && AllPositive(lines) && DispatchLinesOk(s, w, lines, asOf, ships)
    ensures Shippable(s, w, lines, asOf)
  {
    assert lines[..|lines|] == lines;
    ShippedMeansShippable(s, DispatchLines(s, w, lines, ships), w, lines, asOf, ships);
  }

  /** In particular it can be dispatched whenever its invoice can be numbered and no
      row holding a reservation for one of its products has expired. */
  lemma {:induction false} UnexpiredDispatches(steps: seq<Step>, id: nat, asOf: Date)
    requires RunOk(NOTHING_YET, steps) && SafeRun(NOTHING_YET, steps)
    requires CanDispatch(After(NOTHING_YET, steps).books, id)
    requires var b := After(NOTHING_YET, steps).books; !Overtaken(b.numbers, b.codes, ShipScope(b.orders[id]))
    requires var w := After(NOTHING_YET, steps);
             var o := w.books.orders[id];
             forall p, b :: b in ShelfAt(w.stock.shelves, Slot(o.warehouse, p))
                            && 0 < Demand(ItemLines(o.items), p) && Fefo.ExpiredBy(b, asOf) ==>
                            ShelfAt(w.stock.shelves, Slot(o.warehouse, p))[b].reserved <= 0
    ensures exists ships :: DispatchEnabled(After(NOTHING_YET, steps), id, asOf, ships)
  {
    StartsOk();
    RunKeeps(NOTHING_YET, steps);
    var w := After(NOTHING_YET, steps);
    hide RunOk, After, SafeRun, BooksOk, Overtaken;
    UnexpiredOrderShips(w.stock, w.books.orders, id, asOf);
    ConfirmedShipsExactly(w.stock, w.books.orders, id, asOf);
    DispatchProgress(steps, id, asOf);
  }

  /** Whatever transfers have taken, a confirmed order can be dispatched whenever its
      invoice can be numbered and unreserved stock covers all of it. */
  lemma {:induction false} EnoughDispatches(steps: seq<Step>, id: nat, asOf: Date)
    requires RunOk(NOTHING_YET, steps)
    requires CanDispatch(After(NOTHING_YET, steps).books, id)
    requires var b := After(NOTHING_YET, steps).books; !Overtaken(b.numbers, b.codes, ShipScope(b.orders[id]))
    requires var w := After(NOTHING_YET, steps);
             Enough(w.stock, w.books.orders[id].warehouse, ItemLines(w.books.orders[id].items), asOf)
    ensures exists ships :: DispatchEnabled(After(NOTHING_YET, steps), id, asOf, ships)
  {
    StartsOk();
    RunKeeps(NOTHING_YET, steps);
    var w := After(NOTHING_YET, steps);
    hide RunOk, After, Inv, Enough, Overtaken, DispatchEnabled;
    var ships := EnoughEnabled(w, id, asOf);
  }

  /** The choice of batches, in any world the invariant allows. */
  lemma {:induction false} EnoughEnabled(w: World, id: nat, asOf: Date) returns (ships: seq<DispatchPlan>)
    requires Inv(w) && CanDispatch(w.books, id)
    requires !Overtaken(w.books.numbers, w.books.codes, ShipScope(w.books.orders[id]))
    requires Enough(w.stock, w.books.orders[id].warehouse, ItemLines(w.books.orders[id].items), asOf)
    ensures DispatchEnabled(w, id, asOf, ships)
  {
    var order := w.books.orders[id];
    OrderIsPositive(w, id);
    PoolHoldsOrder(w.stock, w.books.orders, id);
    assert NumbersOk(w.books);
    ShipNumberFree(w.books, id);
    hide Inv, PoolHolds, Enough, ItemLines, DispatchLinesOk, NumbersOk, CanIssue, Overtaken;
    ships := EnoughPlansExist(w.stock, order.warehouse, ItemLines(order.items), asOf);
  }

  /** In the loop of a dispatch in any reachable world, transfers of reserved stock or
      not, no release asks for more than the pool still holds. */
  lemma {:induction false} DispatchNeverOverReleases(steps: seq<Step>, id: nat, t: StockState, i: nat, asOf: Date,
                                                     ships: seq<DispatchPlan>)
    requires RunOk(NOTHING_YET, steps)
    requires var w := After(NOTHING_YET, steps);
             && CanDispatch(w.books, id) && i < |w.books.orders[id].items|
             && Dispatching(w.stock, t, w.books.orders[id].warehouse, ItemLines(w.books.orders[id].items), i, asOf,
                            ships)
    ensures var order := After(NOTHING_YET, steps).books.orders[id];
            0 < order.items[i].quantity <= HeldIn(t, Slot(order.warehouse, order.items[i].product))
  {
    StartsOk();
    RunKeeps(NOTHING_YET, steps);
    var w := After(NOTHING_YET, steps);
    hide RunOk, After, BooksOk, WorkshopOk, Dispatching;
    NeverOverReleased(w.stock, w.books.orders, id, t, i, asOf, ships);
  }
}
