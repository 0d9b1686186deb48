/** Runs from empty tables in which the code does what its documentation does not
    expect: a limit passed by two orders, a transfer that takes reserved stock, a
    confirmed order that cannot ship, a branch whose number is taken. */
module Witnesses {
  import opened Prelude
  import opened MapSum
  import Fefo
  import opened Stock
  import opened StockLines
  import opened Fulfilment
  import opened Documents
  import opened Numbering
  import opened Registers
  import opened Repairs
  import opened Money
  import opened Pricing
  import opened Catalogue
  import opened SaleRules
  import opened Bookkeeping
  import opened OrderRules
  import opened CreditLimit
  import opened Runs
  import opened Guarantees
  import opened Progress
  import opened Shipping

  /** One product at 6.00 without tax, one dealer with a limit of 10.00. */
  const GOODS: map<Id, Product> := map[1 := Product(600, 600, 600, 0)]
  const DEALERS: map<Id, Customer> := map[7 := Customer(1000)]
  const SHOP := Slot(0, 1)
  const UNIT: nat := 1000

  const UNIT_LINES: seq<CartLine> := [CartLine(1, UNIT, 0)]

  /** An order of one unit, confirmed, without an override. */
  function UnitOrder(branch: Option<Id>): OrderRequest {
    OrderRequest(0, branch, 7, 0, UNIT_LINES, false, false, 0)
  }

  // --- Building runs -----------------------------------------------------------------------

  lemma {:induction false} Reached(steps: seq<Step>)
    requires RunOk(NOTHING_YET, steps)
    ensures Inv(After(NOTHING_YET, steps))
  {
    StartsOk();
    RunKeeps(NOTHING_YET, steps);
  }

  lemma {:induction false} NoTransfers(w: World, steps: seq<Step>)
    requires RunOk(w, steps) && forall i :: 0 <= i < |steps| ==> !steps[i].Transfer?
    ensures SafeRun(w, steps)
    decreases |steps|
  {
    if steps != [] {
      hide Enabled, Apply;
      NoTransfers(Apply(w, steps[0]), steps[1..]);
    }
  }

  // --- What a unit costs and takes -----------------------------------------------------------

  lemma {:induction false} UnitPrice()
    ensures CartOk(GOODS, UNIT_LINES)
    ensures CartTotals(GOODS, UNIT_LINES, Dealer) == Totals(600, 0, 600)
    ensures CartTotals(GOODS, UNIT_LINES, Counter) == Totals(600, 0, 600)
  {
    var line := CartLine(1, UNIT, 0);
    assert BestSlab([], UNIT) == None;
    assert ResolveUnitPrice(InputOf(GOODS[1], line, Dealer)) == (600, Wholesale);
    assert ResolveUnitPrice(InputOf(GOODS[1], line, Counter)) == (600, Retail);
    assert HalfUp(600 * UNIT, 1000) == 600 && HalfUp(600 * PERCENT, PERCENT) == 600 && HalfUp(0, PERCENT) == 0;
    assert PriceOf(GOODS, line, Dealer) == Some(PriceResult(600, Wholesale, 600, 0, 600, 0, 600));
    assert PriceOf(GOODS, line, Counter) == Some(PriceResult(600, Retail, 600, 0, 600, 0, 600));
    assert [line][..0] == [];
  }

  lemma {:induction false} UnitDemand(p: Id)
    ensures LinesOf(UNIT_LINES) == [Line(1, UNIT)]
    ensures Demand([Line(1, UNIT)], p) == if p == 1 then UNIT else 0
  {
    var line := Line(1, UNIT);
    DemandSnoc([line], 0, p);
    assert [line][..1] == [line] && [line][..0] == [];
  }

  lemma {:induction false} UnitFits(s: StockState, asOf: Date)
    requires UNIT <= UsableIn(s, SHOP, asOf)
    ensures Enough(s, 0, LinesOf(UNIT_LINES), asOf)
  {
    forall p ensures Demand(LinesOf(UNIT_LINES), p) <= UsableIn(s, Slot(0, p), asOf) {
      UnitDemand(p);
      UsableSane(s, Slot(0, p), asOf);
    }
  }

  lemma {:induction false} TotalOne(b: Fefo.BatchRef, v: int)
    ensures Total(map[b := v]) == v
  {
    TotalRemove(map[b := v], b);
    assert map[b := v] - {b} == map[];
  }

  /** Goods on the shelf, sellable until they expire. */
  lemma {:induction false} Stocked(batch: Fefo.BatchRef, q: nat, asOf: Date) returns (steps: seq<Step>)
    requires 0 < q && !Fefo.ExpiredBy(batch, asOf)
    ensures steps == [Step.Receive(SHOP, batch, Opening, q)]
    ensures RunOk(NOTHING_YET, steps)
    ensures var w := After(NOTHING_YET, steps);
            && w.books == EMPTY_BOOKS && CustomerOutstanding(w.books.invoices, 7) == 0
            && OnShelf(w.stock) == map[batch := q]
            && UsableIn(w.stock, SHOP, asOf) == q && HeldIn(w.stock, SHOP) == 0
  {
    var step := Step.Receive(SHOP, batch, Opening, q);
    steps := [step];
    assert [step][1..] == [];
    var w := Apply(NOTHING_YET, step);
    assert After(NOTHING_YET, steps) == w;
    OneRow(w.stock, batch, q, asOf);
  }

  lemma {:induction false} OneRow(s: StockState, batch: Fefo.BatchRef, q: nat, asOf: Date)
    requires ShelfAt(s.shelves, SHOP) == map[batch := Balance(q, 0)] && !Fefo.ExpiredBy(batch, asOf)
    ensures OnShelf(s) == map[batch := q] && UsableIn(s, SHOP, asOf) == q && HeldIn(s, SHOP) == 0
  {
    var shelf := ShelfAt(s.shelves, SHOP);
    TotalOne(batch, q);
    TotalOne(batch, 0);
    assert UsableAt(shelf, asOf) == map[batch := q] && HeldCaps(shelf) == map[batch := 0];
  }

  /** A unit is sellable, within the dealer's limit, and the order can be numbered. */
  ghost predicate CanTakeUnit(w: World, branch: Option<Id>) {
    && UNIT <= UsableIn(w.stock, SHOP, 0) && CustomerOutstanding(w.books.invoices, 7) + 600 <= 1000
    && KnownBranch(branch, w.books.codes)
    && !Overtaken(w.books.numbers, w.books.codes, Scope(OrderDocument, branch))
  }

  /** A unit order on top of a run. */
  lemma {:induction false} Ordered(before: seq<Step>, branch: Option<Id>) returns (steps: seq<Step>)
    requires RunOk(NOTHING_YET, before) && CanTakeUnit(After(NOTHING_YET, before), branch)
    ensures |steps| == |before| + 1 && steps[..|before|] == before
    ensures var step := steps[|before|];
            step.PlaceOrder? && step.products == GOODS && step.customers == DEALERS && step.order == UnitOrder(branch)
    ensures RunOk(NOTHING_YET, steps)
    ensures var w, after := After(NOTHING_YET, before), After(NOTHING_YET, steps);
            && after.books == ApplyOrder(w.books, GOODS, UnitOrder(branch))
            && UsableIn(after.stock, SHOP, 0) == UsableIn(w.stock, SHOP, 0) - UNIT
            && HeldIn(after.stock, SHOP) == HeldIn(w.stock, SHOP) + UNIT
            && OnShelf(after.stock) == OnShelf(w.stock)
  {
    var w := After(NOTHING_YET, before);
    Reached(before);
    var plan := UnitPlan(w, branch);
    var step := Step.PlaceOrder(GOODS, DEALERS, UnitOrder(branch), [plan]);
    RunSnoc(NOTHING_YET, before, step);
    steps := before + [step];
  }

  /** What the shop holds, batch by batch. */
  function OnShelf(s: StockState): map<Fefo.BatchRef, int> {
    OnHandCaps(ShelfAt(s.shelves, SHOP))
  }

  lemma {:induction false} UnitPlan(w: World, branch: Option<Id>) returns (plan: seq<Fefo.Allocation>)
    requires Inv(w) && CanTakeUnit(w, branch)
    ensures var step := Step.PlaceOrder(GOODS, DEALERS, UnitOrder(branch), [plan]);
            && Enabled(w, step)
            && var after := Apply(w, step);
               && after.books == ApplyOrder(w.books, GOODS, UnitOrder(branch))
               && UsableIn(after.stock, SHOP, 0) == UsableIn(w.stock, SHOP, 0) - UNIT
               && HeldIn(after.stock, SHOP) == HeldIn(w.stock, SHOP) + UNIT
               && OnShelf(after.stock) == OnShelf(w.stock)
  {
    plan := IssuePlanExists(w.stock, SHOP, UNIT, 0);
    UnitEnabled(w, branch, plan);
    UnitReserved(w.stock, plan);
    hide Inv, UsableIn, HeldIn, OnShelf, ApplyReserve, ApplyOrder;
    UnitApplied(w, branch, plan);
  }

  lemma {:induction false} UnitApplied(w: World, branch: Option<Id>, plan: seq<Fefo.Allocation>)
    requires OrderEnabled(w, GOODS, DEALERS, UnitOrder(branch), [plan])
    ensures var step := Step.PlaceOrder(GOODS, DEALERS, UnitOrder(branch), [plan]);
            && Enabled(w, step)
            && Apply(w, step).stock == ReserveLines(w.stock, 0, LinesOf(UNIT_LINES), [plan])
            && Apply(w, step).books == ApplyOrder(w.books, GOODS, UnitOrder(branch))
  {
    hide OrderEnabled, ReserveLines, ApplyOrder;
  }

  lemma {:induction false} UnitEnabled(w: World, branch: Option<Id>, plan: seq<Fefo.Allocation>)
    requires Inv(w) && IssueOk(w.stock, SHOP, UNIT, 0, plan) && CanTakeUnit(w, branch)
    ensures OrderEnabled(w, GOODS, DEALERS, UnitOrder(branch), [plan])
  {
    assert NumbersOk(w.books);
    hide Inv, NumbersOk, CanIssue, UsableIn, IssueOk, CustomerOutstanding, CartTotals, Enough, CartOk;
    UnitPrice();
    UnitFits(w.stock, 0);
    IssuableExactly(w.books, ScopeOf(UnitOrder(branch)));
    UnitDemand(1);
    OneLineReserved(w.stock, plan);
  }

  lemma {:induction false} OneLineReserved(s: StockState, plan: seq<Fefo.Allocation>)
    requires IssueOk(s, SHOP, UNIT, 0, plan)
    ensures ReserveLinesOk(s, 0, [Line(1, UNIT)], 0, [plan])
    ensures ReserveLines(s, 0, [Line(1, UNIT)], [plan]) == ApplyReserve(s, SHOP, plan)
  {
    hide IssueOk, ApplyReserve;
    assert [Line(1, UNIT)][..0] == [] && [plan][..0] == [];
  }

  lemma {:induction false} UnitReserved(s: StockState, plan: seq<Fefo.Allocation>)
    requires Projected(s) && IssueOk(s, SHOP, UNIT, 0, plan)
    ensures var after := ApplyReserve(s, SHOP, plan);
            && ReserveLines(s, 0, LinesOf(UNIT_LINES), [plan]) == after
            && UsableIn(after, SHOP, 0) == UsableIn(s, SHOP, 0) - UNIT
            && HeldIn(after, SHOP) == HeldIn(s, SHOP) + UNIT
            && OnShelf(after) == OnShelf(s)
  {
    UnitDemand(1);
    OneLineReserved(s, plan);
    ReserveOneEffect(s, SHOP, UNIT, 0, plan, SHOP);
    assert NonNegative(ShelfAt(s.shelves, SHOP));
    ReserveEffect(ShelfAt(s.shelves, SHOP), 0, UNIT, plan);
  }

  // --- A transfer takes reserved stock -------------------------------------------------------

  /** The shelf of the shop when one batch is all it holds. */
  lemma {:induction false} OneBatch(s: StockState, batch: Fefo.BatchRef, q: int)
    requires OnShelf(s) == map[batch := q]
    ensures ShelfAt(s.shelves, SHOP) == map[batch := Balance(q, HeldIn(s, SHOP))]
  {
    var shelf := ShelfAt(s.shelves, SHOP);
    assert shelf.Keys == {batch} && shelf[batch].onHand == OnShelf(s)[batch];
    TotalOne(batch, shelf[batch].reserved);
    assert HeldCaps(shelf) == map[batch := shelf[batch].reserved];
    assert shelf == map[batch := Balance(q, shelf[batch].reserved)];
  }

  /** One unit in stock, one confirmed order for it. */
  lemma {:induction false} UnitReservedRun(batch: Fefo.BatchRef) returns (steps: seq<Step>)
    requires !Fefo.ExpiredBy(batch, 0)
    ensures |steps| == 2 && steps[0].Receive? && steps[1].PlaceOrder?
    ensures RunOk(NOTHING_YET, steps)
    ensures var w := After(NOTHING_YET, steps);
            && w.books.orders == [NewOrder(EMPTY_BOOKS, GOODS, UnitOrder(None))]
            && ShelfAt(w.stock.shelves, SHOP) == map[batch := Balance(UNIT, UNIT)]
  {
    hide RunOk, After, UsableIn, HeldIn, OnShelf, CustomerOutstanding, NewOrder, ShelfAt;
    var goods := Stocked(batch, UNIT, 0);
    steps := Ordered(goods, None);
    OneBatch(After(NOTHING_YET, steps).stock, batch, UNIT);
    assert steps[0] == steps[..1][0];
    assert [] + [NewOrder(EMPTY_BOOKS, GOODS, UnitOrder(None))] == [NewOrder(EMPTY_BOOKS, GOODS, UnitOrder(None))];
  }

  lemma {:induction false} TakesReserved(w: World)
    requires ShelfAt(w.stock.shelves, SHOP) == map[None := Balance(UNIT, UNIT)]
    ensures var step := Step.Transfer(SHOP, Slot(1, 1), None, UNIT); Enabled(w, step) && !TransferSafe(w, step)
  {
  }

  /** Receive, order, transfer: the transfer leaves the order's reservation without
      stock behind it. */
  lemma {:induction false} TransferTakesReserved() returns (steps: seq<Step>)
    ensures |steps| == 3 && steps[0].Receive? && steps[1].PlaceOrder? && steps[2].Transfer?
    ensures RunOk(NOTHING_YET, steps) && !AllCovered(After(NOTHING_YET, steps).stock)
  {
    hide RunOk, After, SafeRun, Inv, Enabled, Apply, AllCovered, TransferSafe, ShelfAt, NewOrder;
    var before := UnitReservedRun(None);
    var w := After(NOTHING_YET, before);
    Reached(before);
    NoTransfers(NOTHING_YET, before);
    StartsOk();
    SafeRunCovers(NOTHING_YET, before);
    var step := Step.Transfer(SHOP, Slot(1, 1), None, UNIT);
    TakesReserved(w);
    StepCovers(w, step);
    RunSnoc(NOTHING_YET, before, step);
    steps := before + [step];
  }

  // --- A confirmed order cannot ship -----------------------------------------------------------

  /** Good until day 10. */
  const DATED: Fefo.BatchRef := Some(Fefo.Batch(0, Some(10)))

  /** Receive a dated batch, order it: the order is confirmed, and after the batch has
      expired nothing lets it ship. */
  lemma {:induction false} ExpiredOrderStays(asOf: Date) returns (steps: seq<Step>)
    requires 10 <= asOf
    ensures |steps| == 2 && steps[0].Receive? && steps[1].PlaceOrder? && RunOk(NOTHING_YET, steps)
    ensures var w := After(NOTHING_YET, steps);
            && CanDispatch(w.books, 0)
            && !ExpiredIsCovered(w.stock, w.books.orders[0], asOf)
            && forall ships :: !DispatchEnabled(w, 0, asOf, ships)
  {
    hide RunOk, After, SafeRun, DispatchEnabled, ExpiredIsCovered, Overtaken, NewOrder, UsableIn, HeldExpiredIn,
         ShelfAt,
         ItemLines;
    steps := UnitReservedRun(DATED);
    var w := After(NOTHING_YET, steps);
    NoTransfers(NOTHING_YET, steps);
    ExpiredUnit(w.stock, asOf);
    UnitOrderRow();
    assert w.books.orders[0] == NewOrder(EMPTY_BOOKS, GOODS, UnitOrder(None));
    NotCovered(w.stock, w.books.orders[0], asOf);
    DispatchProgress(steps, 0, asOf);
  }

  /** The order as it is stored. */
  lemma {:induction false} UnitOrderRow()
    ensures var o := NewOrder(EMPTY_BOOKS, GOODS, UnitOrder(None));
            && o.status == Confirmed && o.customer == 7 && o.warehouse == 0 && o.branch == None
            && o.grandTotal == 600 && ItemLines(o.items) == [Line(1, UNIT)]
  {
    UnitPrice();
    UnitDemand(1);
    ItemLinesAre(GOODS, UNIT_LINES, true);
  }

  lemma {:induction false} ExpiredUnit(s: StockState, asOf: Date)
    requires ShelfAt(s.shelves, SHOP) == map[DATED := Balance(UNIT, UNIT)] && 10 <= asOf
    ensures UsableIn(s, SHOP, asOf) == 0 && HeldExpiredIn(s, SHOP, asOf) == UNIT
  {
    var shelf := ShelfAt(s.shelves, SHOP);
    TotalOne(DATED, 0);
    TotalOne(DATED, UNIT);
    assert UsableAt(shelf, asOf) == map[DATED := 0];
    assert Fefo.ExpiringBy(HeldCaps(shelf), asOf) == map[DATED := UNIT];
  }

  lemma {:induction false} NotCovered(s: StockState, o: SalesOrder, asOf: Date)
    requires o.warehouse == 0 && ItemLines(o.items) == [Line(1, UNIT)]
    requires UsableIn(s, SHOP, asOf) == 0 && HeldExpiredIn(s, SHOP, asOf) == UNIT
    ensures !ExpiredIsCovered(s, o, asOf)
  {
    UnitDemand(1);
    assert Demand(ItemLines(o.items), 1) == UNIT && Slot(0, 1) == SHOP;
  }

  // --- Two orders pass the credit limit ----------------------------------------------------------

  /** The rows of two unit orders, neither shipped. */
  ghost predicate IsUnit(o: SalesOrder) {
    && o.status == Confirmed && o.customer == 7 && o.warehouse == 0 && o.branch == None
    && o.grandTotal == 600 && ItemLines(o.items) == [Line(1, UNIT)]
  }

  /** A unit order ships on top of a run with enough unreserved stock. */
  lemma {:induction false} ShippedUnit(before: seq<Step>, id: nat) returns (steps: seq<Step>)
    requires RunOk(NOTHING_YET, before)
    requires var w := After(NOTHING_YET, before);
             id < |w.books.orders| && IsUnit(w.books.orders[id]) && UNIT <= UsableIn(w.stock, SHOP, 0)
    ensures |steps| == |before| + 1 && steps[..|before|] == before
    ensures steps[|before|].Dispatch? && steps[|before|].id == id && RunOk(NOTHING_YET, steps)
    ensures var w, after := After(NOTHING_YET, before), After(NOTHING_YET, steps);
            && CustomerOutstanding(after.books.invoices, 7) == CustomerOutstanding(w.books.invoices, 7) + 600
            && UsableIn(w.stock, SHOP, 0) - UNIT <= UsableIn(after.stock, SHOP, 0)
            && |after.books.orders| == |w.books.orders|
            && forall i :: 0 <= i < |w.books.orders| && i != id ==> after.books.orders[i] == w.books.orders[i]
  {
    var w := After(NOTHING_YET, before);
    Reached(before);
    UnitEnough(w.stock, w.books.orders[id]);
    EnoughDispatches(before, id, 0);
    var ships :| DispatchEnabled(w, id, 0, ships);
    var step := Step.Dispatch(id, 0, 0, ships);
    steps := before + [step];
    hide RunOk, After, Inv, DispatchEnabled, UsableIn, CustomerOutstanding;
    UnitShips(w, id, ships);
    RunSnoc(NOTHING_YET, before, step);
  }

  lemma {:induction false} UnitEnough(s: StockState, o: SalesOrder)
    requires IsUnit(o) && UNIT <= UsableIn(s, SHOP, 0)
    ensures Enough(s, o.warehouse, ItemLines(o.items), 0)
  {
    UnitDemand(1);
    UnitFits(s, 0);
  }

  lemma {:induction false} UnitShips(w: World, id: nat, ships: seq<DispatchPlan>)
    requires Inv(w) && DispatchEnabled(w, id, 0, ships) && IsUnit(w.books.orders[id])
    ensures var step := Step.Dispatch(id, 0, 0, ships);
            && Enabled(w, step)
            && var after := Apply(w, step);
               && CustomerOutstanding(after.books.invoices, 7) == CustomerOutstanding(w.books.invoices, 7) + 600
               && UsableIn(w.stock, SHOP, 0) - UNIT <= UsableIn(after.stock, SHOP, 0)
               && |after.books.orders| == |w.books.orders|
               && forall i :: 0 <= i < |w.books.orders| && i != id ==> after.books.orders[i] == w.books.orders[i]
  {
    assert Projected(w.stock);
    hide Inv, DispatchLinesOk, DispatchLines, CustomerOutstanding, UsableIn, HeldIn, ItemLines, Projected, CanIssue,
         ApplyOrderDispatch, ConfirmedTotal, Enabled, Apply;
    UnitShipped(w, id, ships);
    DispatchKeepsExposure(w.books, id, 0, 7);
    DispatchLinesHold(w.stock, 0, [Line(1, UNIT)], 0, ships, SHOP);
    UnitDemand(1);
    OtherOrdersStay(w.books, id, 0);
  }

  lemma {:induction false} UnitShipped(w: World, id: nat, ships: seq<DispatchPlan>)
    requires DispatchEnabled(w, id, 0, ships) && IsUnit(w.books.orders[id])
    ensures DispatchLinesOk(w.stock, 0, [Line(1, UNIT)], 0, ships)
    ensures var step := Step.Dispatch(id, 0, 0, ships);
            && Enabled(w, step)
            && Apply(w, step).books == ApplyOrderDispatch(w.books, id, 0)
            && Apply(w, step).stock == DispatchLines(w.stock, 0, [Line(1, UNIT)], ships)
  {
    hide DispatchLinesOk, DispatchLines, ItemLines, CanIssue, ApplyOrderDispatch;
    PlansCount(w.stock, 0, [Line(1, UNIT)], 0, ships);
  }

  lemma {:induction false} OtherOrdersStay(b: Books, id: nat, date: Date)
    requires id < |b.orders|
    ensures var after := ApplyOrderDispatch(b, id, date).orders;
            |after| == |b.orders| && forall i :: 0 <= i < |b.orders| && i != id ==> after[i] == b.orders[i]
  {
  }

  /** Two orders of 6.00 each pass the check of a limit of 10.00 without an override,
      since neither is invoiced yet; both ship, and the dealer owes 12.00. */
  lemma {:induction false} TwoOrdersBreakTheLimit() returns (steps: seq<Step>)
    ensures |steps| == 5 && RunOk(NOTHING_YET, steps)
    ensures steps[0].Receive? && steps[3].Dispatch? && steps[4].Dispatch?
    ensures forall i :: 1 <= i <= 2 ==>
              steps[i].PlaceOrder? && steps[i].customers == DEALERS && steps[i].order == UnitOrder(None)
    ensures DEALERS[7].creditLimit == 1000 && UnitOrder(None).customer == 7 && !UnitOrder(None).creditOverride
    ensures CustomerOutstanding(After(NOTHING_YET, steps).books.invoices, 7) == 1200
  {
    hide RunOk, After, UsableIn, HeldIn, OnShelf, CustomerOutstanding, NewOrder, IsUnit, ShelfAt;
    var goods := Stocked(None, 4 * UNIT, 0);
    var one := Ordered(goods, None);
    var two := Ordered(one, None);
    IsUnitOrder(After(NOTHING_YET, goods).books);
    IsUnitOrder(After(NOTHING_YET, one).books);
    var three := ShippedUnit(two, 0);
    steps := ShippedUnit(three, 1);
    assert three == steps[..4] && two == three[..3] && one == two[..2] && goods == one[..1];
  }

  lemma {:induction false} IsUnitOrder(b: Books)
    ensures IsUnit(NewOrder(b, GOODS, UnitOrder(None)))
  {
    UnitPrice();
    UnitDemand(1);
    ItemLinesAre(GOODS, UNIT_LINES, true);
  }

  // --- A branch is overtaken -------------------------------------------------------------------------

  /** Two branches whose codes differ in their last character only: once the first has
      taken in a repair, the other cannot. */
  lemma {:induction false} SecondBranchRefused() returns (steps: seq<Step>)
    ensures |steps| == 3 && steps[0].OpenBranch? && steps[1].OpenBranch? && steps[2].TakeIn?
    ensures steps[0].code != steps[1].code && steps[2].intake.branch == Some(steps[0].branch)
    ensures RunOk(NOTHING_YET, steps)
    ensures !CanIssue(After(NOTHING_YET, steps).books, Scope(RepairDocument, Some(steps[1].branch)))
  {
    var first, second := Step.OpenBranch(0, "WAREHOUSE-N1"), Step.OpenBranch(1, "WAREHOUSE-N2");
    var intake := IntakeRequest(Some(0), 0, None, 0);
    SameCut();
    var one := Apply(NOTHING_YET, first);
    assert one.books.codes == map[0 := "WAREHOUSE-N1"];
    var two := Apply(one, second);
    assert two.books.codes == map[0 := "WAREHOUSE-N1", 1 := "WAREHOUSE-N2"];
    hide Enabled, Apply, Inv;
    RunSnoc(NOTHING_YET, [], first);
    RunSnoc(NOTHING_YET, [first], second);
    Reached([first, second]);
    FirstIntake(two, intake);
    RunSnoc(NOTHING_YET, [first, second], Step.TakeIn([], intake));
    steps := [first, second, Step.TakeIn([], intake)];
  }

  lemma {:induction false} FirstIntake(w: World, intake: IntakeRequest)
    requires Inv(w) && w.books.numbers == map[] && w.books.codes == map[0 := "WAREHOUSE-N1", 1 := "WAREHOUSE-N2"]
    requires intake.branch == Some(0)
    ensures Enabled(w, Step.TakeIn([], intake))
    ensures !CanIssue(Apply(w, Step.TakeIn([], intake)).books, Scope(RepairDocument, Some(1)))
  {
    var other := Scope(RepairDocument, Some(1));
    SameCut();
    IssuableExactly(w.books, JobScope(intake));
    var step := Step.TakeIn([], intake);
    StepKeeps(w, step);
    var after := Apply(w, step).books;
    assert IsAhead(after.numbers, after.codes, other, 0);
    IssuableExactly(after, other);
  }

  lemma {:induction false} SameCut()
    ensures "WAREHOUSE-N1" != "WAREHOUSE-N2" && |"WAREHOUSE-N1"| == |"WAREHOUSE-N2"| == 12
    ensures Cut("WAREHOUSE-N1") == Cut("WAREHOUSE-N2")
  {
    var a, b := "WAREHOUSE-N1", "WAREHOUSE-N2";
    assert a[..11] == "WAREHOUSE-N" && b[..11] == "WAREHOUSE-N";
    assert a[11] != b[11];
  }

  // --- A confirmed order that is never invoiced ------------------------------------------------------

  const WALK_IN := SaleRequest(0, Some(0), 0, UNIT_LINES, [Tender(Cash, 600)], None, None, 0, 0)

  const TWO_BRANCHES: map<Id, string> := map[0 := "WAREHOUSE-N1", 1 := "WAREHOUSE-N2"]

  /** Goods and both branches. */
  lemma {:induction false} TwoBranches() returns (steps: seq<Step>)
    ensures |steps| == 3 && steps[0].Receive? && steps[1].OpenBranch? && steps[2].OpenBranch?
    ensures RunOk(NOTHING_YET, steps)
    ensures var w := After(NOTHING_YET, steps);
            && w.books == EMPTY_BOOKS.(codes := TWO_BRANCHES)
            && UsableIn(w.stock, SHOP, 0) == 2 * UNIT
  {
    hide RunOk, After, UsableIn, OnShelf, HeldIn, CustomerOutstanding, Enabled, Apply;
    var goods := Stocked(None, 2 * UNIT, 0);
    SameCut();
    var one := Opened(goods, 0, "WAREHOUSE-N1");
    var two := Opened(one, 1, "WAREHOUSE-N2");
    assert EMPTY_BOOKS.codes[0 := "WAREHOUSE-N1"][1 := "WAREHOUSE-N2"] == TWO_BRANCHES;
    assert goods == one[..1] && one == two[..2];
    steps := two;
  }

  lemma {:induction false} Opened(before: seq<Step>, branch: Id, code: string) returns (steps: seq<Step>)
    requires RunOk(NOTHING_YET, before) && 1 <= |code| <= 20
    requires var codes := After(NOTHING_YET, before).books.codes; branch !in codes && code !in codes.Values
    ensures |steps| == |before| + 1 && steps[..|before|] == before && steps[|before|].OpenBranch?
    ensures RunOk(NOTHING_YET, steps)
    ensures var w := After(NOTHING_YET, before);
            After(NOTHING_YET, steps) == w.(books := w.books.(codes := w.books.codes[branch := code]))
  {
    hide RunOk, After, Enabled, Apply;
    Opens(After(NOTHING_YET, before), branch, code);
    RunSnoc(NOTHING_YET, before, Step.OpenBranch(branch, code));
    steps := before + [Step.OpenBranch(branch, code)];
  }

  lemma {:induction false} Opens(w: World, branch: Id, code: string)
    requires branch !in w.books.codes && 1 <= |code| <= 20 && code !in w.books.codes.Values
    ensures var step := Step.OpenBranch(branch, code);
            && Enabled(w, step)
            && Apply(w, step) == w.(books := w.books.(codes := w.books.codes[branch := code]))
  {
  }

  /** A walk-in buys a unit at the first branch. */
  lemma {:induction false} WalkIn(w: World) returns (step: Step)
    requires Inv(w) && UNIT <= UsableIn(w.stock, SHOP, 0)
    requires 0 in w.books.codes && !Overtaken(w.books.numbers, w.books.codes, Scope(InvoiceDocument, Some(0)))
    ensures step.Sell? && step.sale == WALK_IN && Enabled(w, step)
    ensures Apply(w, step).books == ApplyRetailSale(w.books, GOODS, WALK_IN)
  {
    hide SaleOk, UsableIn, IssueLinesOk, IssueOk, Enabled, Apply, ApplyRetailSale, Overtaken;
    var plan := IssuePlanExists(w.stock, SHOP, UNIT, 0);
    WalkInOk(w);
    OneLineIssued(w.stock, plan);
    UnitDemand(1);
    step := Step.Sell(GOODS, DEALERS, WALK_IN, [plan]);
    WalkInEnabled(w, plan);
  }

  lemma {:induction false} WalkInEnabled(w: World, plan: seq<Fefo.Allocation>)
    requires SaleOk(w.books, w.stock, GOODS, DEALERS, WALK_IN)
    requires IssueLinesOk(w.stock, 0, LinesOf(UNIT_LINES), 0, RetailSale, [plan])
    ensures var step := Step.Sell(GOODS, DEALERS, WALK_IN, [plan]);
            Enabled(w, step) && Apply(w, step).books == ApplyRetailSale(w.books, GOODS, WALK_IN)
  {
    hide SaleOk, IssueLinesOk, IssueLines, ApplyRetailSale, LinesOf;
  }

  lemma {:induction false} WalkInOk(w: World)
    requires Inv(w) && UNIT <= UsableIn(w.stock, SHOP, 0)
    requires 0 in w.books.codes && !Overtaken(w.books.numbers, w.books.codes, Scope(InvoiceDocument, Some(0)))
    ensures SaleOk(w.books, w.stock, GOODS, DEALERS, WALK_IN)
  {
    assert NumbersOk(w.books);
    hide Inv, NumbersOk, CanIssue, UsableIn, CartTotals, Enough, CartOk, Overtaken;
    UnitPrice();
    UnitFits(w.stock, 0);
    IssuableExactly(w.books, InvoiceScope(WALK_IN));
    assert [Tender(Cash, 600)][..0] == [];
    assert TenderTotal(WALK_IN.tenders) == 600;
  }

  lemma {:induction false} OneLineIssued(s: StockState, plan: seq<Fefo.Allocation>)
    requires IssueOk(s, SHOP, UNIT, 0, plan)
    ensures IssueLinesOk(s, 0, [Line(1, UNIT)], 0, RetailSale, [plan])
  {
    hide IssueOk, ApplyIssue;
    assert [Line(1, UNIT)][..0] == [] && [plan][..0] == [];
  }

  /** Once the first branch has sold, the second can never invoice its confirmed order:
      what is confirmed is above a limit of nothing, and the dealer never owes anything. */
  lemma {:induction false} ConfirmedNeverOwed() returns (steps: seq<Step>)
    ensures |steps| == 5 && steps[3].PlaceOrder? && steps[4].Sell? && RunOk(NOTHING_YET, steps)
    ensures var w := After(NOTHING_YET, steps);
            Exposure(w.books, 7) == 600 && NeverExceeds(w, 7, 0)
  {
    hide RunOk, After, UsableIn, OnShelf, HeldIn, CustomerOutstanding, ApplyOrder, ApplyRetailSale, Overtaken,
         NeverExceeds,
         Exposure;
    var shop := TwoBranches();
    Unnumbered(EMPTY_BOOKS.(codes := TWO_BRANCHES));
    NothingOwed();
    var ordered := Ordered(shop, Some(1));
    var w := After(NOTHING_YET, ordered);
    Reached(ordered);
    AfterUnitOrder();
    var sale := WalkIn(w);
    RunSnoc(NOTHING_YET, ordered, sale);
    steps := ordered + [sale];
    Reached(steps);
    NeverOwed(After(NOTHING_YET, steps));
  }

  lemma {:induction false} Unnumbered(b: Books)
    requires b.numbers == map[]
    ensures forall scope: Scope :: !Overtaken(b.numbers, b.codes, scope)
  {
  }

  lemma {:induction false} NothingOwed()
    ensures CustomerOutstanding(EMPTY_BOOKS.invoices, 7) == 0
  {
  }

  /** The books with the second branch's order, and then with the sale as well. */
  function WithOrder(): Books {
    ApplyOrder(EMPTY_BOOKS.(codes := TWO_BRANCHES), GOODS, UnitOrder(Some(1)))
  }

  lemma {:induction false} AfterUnitOrder()
    ensures WithOrder().codes == TWO_BRANCHES && 0 in WithOrder().codes
    ensures !Overtaken(WithOrder().numbers, WithOrder().codes, Scope(InvoiceDocument, Some(0)))
  {
    hide NewOrder;
  }

  lemma {:induction false} NeverOwed(w: World)
    requires Inv(w) && w.books == ApplyRetailSale(WithOrder(), GOODS, WALK_IN)
    ensures Exposure(w.books, 7) == 600 && NeverExceeds(w, 7, 0)
  {
    SoldBooks();
    hide Inv, ApplyRetailSale, NeverExceeds, Exposure, Overtaken;
    forall branches | branches <= BranchesOf(w.books.orders) && ShipTogether(w.books, branches)
      ensures OwedAfter(w.books, 7, branches) <= 0
    {
      assert Some(1) !in branches;
      NothingPending(w.books.orders, 7, branches);
    }
    WithinLimitExactly(w, 7, 0);
  }

  lemma {:induction false} SoldBooks()
    ensures var b := ApplyRetailSale(WithOrder(), GOODS, WALK_IN);
            && |b.orders| == 1 && b.orders[0].branch == Some(1)
            && CustomerOutstanding(b.invoices, 7) == 0 && Exposure(b, 7) == 600
            && Overtaken(b.numbers, b.codes, Scope(InvoiceDocument, Some(1)))
  {
    var b := ApplyRetailSale(WithOrder(), GOODS, WALK_IN);
    SecondOvertaken();
    SoldRows();
    hide ApplyRetailSale, WithOrder, Overtaken, Pending;
    assert [] + [b.orders[0]] == b.orders && [] + [b.invoices[0]] == b.invoices;
    ConfirmedTotalSnoc([], b.orders[0], 7);
    OutstandingOfSnoc([], b.invoices[0], 7);
  }

  lemma {:induction false} SecondOvertaken()
    ensures var b := ApplyRetailSale(WithOrder(), GOODS, WALK_IN);
            Overtaken(b.numbers, b.codes, Scope(InvoiceDocument, Some(1)))
  {
    hide Cut, CartTotals, ItemsOf, NewOrder, SaleInvoice, SaleJournal;
    var b := ApplyRetailSale(WithOrder(), GOODS, WALK_IN);
    SameCut();
    assert IsAhead(b.numbers, b.codes, Scope(InvoiceDocument, Some(1)), 0);
  }

  lemma {:induction false} SoldRows()
    ensures var b := ApplyRetailSale(WithOrder(), GOODS, WALK_IN);
            && |b.orders| == 1 && b.orders[0].branch == Some(1) && Pending(b.orders[0], 7) == 600
            && |b.invoices| == 1 && b.invoices[0].customer == None
  {
    hide CartTotals, ItemsOf, Advanced, NextOf;
    UnitPrice();
  }
}
