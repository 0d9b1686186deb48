/** Stock steps on the whole state, one line after another, and what a run of
    lines does to the totals of each product. */
module StockLines {
  import opened Prelude
  import opened MapSum
  import opened Fefo
  import opened Stock

  /** One document line as stock sees it. */
  datatype Line = Line(product: Id, quantity: int)

  /** Summed quantity of one product over a document. */
  function Demand(lines: seq<Line>, p: Id): int {
    if lines == [] then 0
    else Demand(lines[..|lines| - 1], p)
         + if lines[|lines| - 1].product == p then lines[|lines| - 1].quantity else 0
  }

  /** Demand as one slot sees it. */
  function DemandAt(lines: seq<Line>, w: Id, slot: Slot): int {
    if slot.warehouse == w then Demand(lines, slot.product) else 0
  }

  lemma {:induction false} DemandAtSnoc(lines: seq<Line>, w: Id, slot: Slot)
    requires lines != []
    ensures var n := |lines| - 1;
            var more := if slot == Slot(w, lines[n].product) then lines[n].quantity else 0;
            DemandAt(lines, w, slot) == DemandAt(lines[..n], w, slot) + more
  {
  }

  predicate AllPositive(lines: seq<Line>) {
    forall i :: 0 <= i < |lines| ==> 0 < lines[i].quantity
  }

  lemma {:induction false} DemandMonotone(lines: seq<Line>, k: nat, p: Id)
    requires AllPositive(lines) && k <= |lines|
    ensures 0 <= Demand(lines[..k], p) <= Demand(lines, p)
  {
    if lines != [] {
      var n := |lines| - 1;
      DemandMonotone(lines[..n], if k <= n then k else n, p);
      if k <= n {
        assert lines[..n][..k] == lines[..k];
      } else {
        assert lines[..k] == lines;
        assert lines[..n][..n] == lines[..n];
      }
    }
  }

  // --- Single steps ------------------------------------------------------------------

  /** One signed ledger row per allocation, in the plan's order. */
  function Outgoing(slot: Slot, kind: MovementType, plan: seq<Allocation>): seq<Movement> {
    if plan == [] then []
    else Outgoing(slot, kind, plan[..|plan| - 1])
         + [Movement(slot, plan[|plan| - 1].batch, kind, -plan[|plan| - 1].quantity)]
  }

  function ApplyIssue(s: StockState, slot: Slot, kind: MovementType, plan: seq<Allocation>): StockState {
    StockState(s.shelves[slot := Issued(ShelfAt(s.shelves, slot), plan)], s.ledger + Outgoing(slot, kind, plan))
  }

  function ApplyReserve(s: StockState, slot: Slot, plan: seq<Allocation>): StockState {
    StockState(s.shelves[slot := Reserved(ShelfAt(s.shelves, slot), plan)], s.ledger)
  }

  function ApplyRelease(s: StockState, slot: Slot, plan: seq<Allocation>): StockState {
    StockState(s.shelves[slot := Released(ShelfAt(s.shelves, slot), plan)], s.ledger)
  }

  function ApplyPost(s: StockState, slot: Slot, b: BatchRef, kind: MovementType, delta: int): StockState {
    StockState(s.shelves[slot := Posted(ShelfAt(s.shelves, slot), b, delta)],
               s.ledger + [Movement(slot, b, kind, delta)])
  }

  /** A plan `issue_fefo`, `reserve` or a reducing `adjust` may choose. */
  ghost predicate IssueOk(s: StockState, slot: Slot, q: int, asOf: Date, plan: seq<Allocation>) {
    0 < q && IsEarliestFirst(UsableAt(ShelfAt(s.shelves, slot), asOf), q, plan)
  }

  /** A walk `release_reservation` may take without running out. */
  ghost predicate ReleaseOk(s: StockState, slot: Slot, q: int, plan: seq<Allocation>) {
    0 < q && IsEarliestFirst(HeldCaps(ShelfAt(s.shelves, slot)), q, plan)
  }

  // --- Invariants ---------------------------------------------------------------------

  function LedgerSum(ledger: seq<Movement>, slot: Slot, b: BatchRef): int {
    if ledger == [] then 0
    else
      var m := ledger[|ledger| - 1];
      LedgerSum(ledger[..|ledger| - 1], slot, b) + if m.slot == slot && m.batch == b then m.quantity else 0
  }

  ghost predicate AllNonNegative(shelves: map<Slot, Shelf>) {
    forall slot :: NonNegative(ShelfAt(shelves, slot))
  }

  /** Every balance is the sum of its movements. */
  ghost predicate Ledgered(s: StockState) {
    forall slot, b :: OnHandAt(ShelfAt(s.shelves, slot), b) == LedgerSum(s.ledger, slot, b)
  }

  ghost predicate Projected(s: StockState) {
    AllNonNegative(s.shelves) && Ledgered(s)
  }

  ghost predicate AllCovered(s: StockState) {
    forall slot :: Covered(ShelfAt(s.shelves, slot))
  }

  lemma {:induction false} ShelfSet(shelves: map<Slot, Shelf>, slot: Slot, shelf: Shelf, at: Slot)
    ensures ShelfAt(shelves[slot := shelf], at) == if at == slot then shelf else ShelfAt(shelves, at)
  {
  }

  lemma {:induction false} SetNonNegative(shelves: map<Slot, Shelf>, slot: Slot, shelf: Shelf)
    requires AllNonNegative(shelves) && NonNegative(shelf)
    ensures AllNonNegative(shelves[slot := shelf])
  {
    var after := shelves[slot := shelf];
    forall at ensures NonNegative(ShelfAt(after, at)) {
      assert NonNegative(ShelfAt(shelves, at));
    }
  }

  lemma {:induction false} SetCovered(s: StockState, slot: Slot, shelf: Shelf, ledger: seq<Movement>)
    requires AllCovered(s) && Covered(shelf)
    ensures AllCovered(StockState(s.shelves[slot := shelf], ledger))
  {
    var after := s.shelves[slot := shelf];
    forall at ensures Covered(ShelfAt(after, at)) {
      assert Covered(ShelfAt(s.shelves, at));
    }
  }

  /** Changing one shelf by the movements appended keeps the projection. */
  lemma {:induction false} SetLedgered(s: StockState, slot: Slot, shelf: Shelf, moves: seq<Movement>)
    requires Ledgered(s)
    requires forall b :: OnHandAt(shelf, b) == OnHandAt(ShelfAt(s.shelves, slot), b) + LedgerSum(moves, slot, b)
    requires forall at, b :: at != slot ==> LedgerSum(moves, at, b) == 0
    ensures Ledgered(StockState(s.shelves[slot := shelf], s.ledger + moves))
  {
    forall at, b ensures OnHandAt(ShelfAt(s.shelves[slot := shelf], at), b) == LedgerSum(s.ledger + moves, at, b) {
      LedgerConcat(s.ledger, moves, at, b);
      assert OnHandAt(ShelfAt(s.shelves, at), b) == LedgerSum(s.ledger, at, b);
    }
  }

  lemma {:induction false} LedgerConcat(l: seq<Movement>, m: seq<Movement>, slot: Slot, b: BatchRef)
    ensures LedgerSum(l + m, slot, b) == LedgerSum(l, slot, b) + LedgerSum(m, slot, b)
  {
    if m == [] {
      assert l + m == l;
    } else {
      LedgerConcat(l, m[..|m| - 1], slot, b);
      assert (l + m)[..|l + m| - 1] == l + m[..|m| - 1];
    }
  }

  lemma {:induction false} OutgoingSum(slot: Slot, kind: MovementType, plan: seq<Allocation>, at: Slot, b: BatchRef)
    ensures LedgerSum(Outgoing(slot, kind, plan), at, b) == if at == slot then -Taken(plan, b) else 0
  {
    if plan != [] {
      OutgoingSum(slot, kind, plan[..|plan| - 1], at, b);
      var front := Outgoing(slot, kind, plan[..|plan| - 1]);
      var last := Movement(slot, plan[|plan| - 1].batch, kind, -plan[|plan| - 1].quantity);
      assert (front + [last])[..|front|] == front;
    }
  }

  lemma {:induction false} IssueKeeps(s: StockState, slot: Slot, kind: MovementType, q: int, asOf: Date,
                                      plan: seq<Allocation>)
    requires Projected(s) && IssueOk(s, slot, q, asOf, plan)
    ensures Projected(ApplyIssue(s, slot, kind, plan))
    ensures AllCovered(s) ==> AllCovered(ApplyIssue(s, slot, kind, plan))
  {
    var shelf := ShelfAt(s.shelves, slot);
    var moves := Outgoing(slot, kind, plan);
    assert NonNegative(shelf);
    IssueEffect(shelf, asOf, q, plan);
    SetNonNegative(s.shelves, slot, Issued(shelf, plan));
    forall at, b ensures LedgerSum(moves, at, b) == if at == slot then -Taken(plan, b) else 0 {
      OutgoingSum(slot, kind, plan, at, b);
    }
    forall b ensures OnHandAt(Issued(shelf, plan), b) == OnHandAt(shelf, b) - Taken(plan, b) {
      if b !in shelf {
        TakenNothing(plan, b);
      }
    }
    SetLedgered(s, slot, Issued(shelf, plan), moves);
    if AllCovered(s) {
      assert Covered(shelf);
      SetCovered(s, slot, Issued(shelf, plan), s.ledger + moves);
    }
  }

  lemma {:induction false} ReserveKeeps(s: StockState, slot: Slot, q: int, asOf: Date, plan: seq<Allocation>)
    requires Projected(s) && IssueOk(s, slot, q, asOf, plan)
    ensures Projected(ApplyReserve(s, slot, plan))
    ensures AllCovered(s) ==> AllCovered(ApplyReserve(s, slot, plan))
  {
    var shelf := ShelfAt(s.shelves, slot);
    assert NonNegative(shelf);
    ReserveEffect(shelf, asOf, q, plan);
    SameOnHand(s, slot, Reserved(shelf, plan));
    if AllCovered(s) {
      assert Covered(shelf);
      SetCovered(s, slot, Reserved(shelf, plan), s.ledger);
    }
  }

  lemma {:induction false} ReleaseKeeps(s: StockState, slot: Slot, q: int, plan: seq<Allocation>)
    requires Projected(s) && ReleaseOk(s, slot, q, plan)
    ensures Projected(ApplyRelease(s, slot, plan))
    ensures AllCovered(s) ==> AllCovered(ApplyRelease(s, slot, plan))
  {
    var shelf := ShelfAt(s.shelves, slot);
    assert NonNegative(shelf);
    ReleaseEffect(shelf, 0, q, plan);
    SameOnHand(s, slot, Released(shelf, plan));
    if AllCovered(s) {
      assert Covered(shelf);
      ReleaseFrees(shelf, 0, q, plan);
      SetCovered(s, slot, Released(shelf, plan), s.ledger);
    }
  }

  lemma {:induction false} SameOnHand(s: StockState, slot: Slot, shelf: Shelf)
    requires Projected(s) && NonNegative(shelf)
    requires OnHandCaps(shelf) == OnHandCaps(ShelfAt(s.shelves, slot))
    ensures Projected(StockState(s.shelves[slot := shelf], s.ledger))
  {
    SetNonNegative(s.shelves, slot, shelf);
    forall b ensures OnHandAt(shelf, b) == OnHandAt(ShelfAt(s.shelves, slot), b) {
      OnHandIsCap(shelf, b);
      OnHandIsCap(ShelfAt(s.shelves, slot), b);
    }
    SetLedgered(s, slot, shelf, []);
    assert s.ledger + [] == s.ledger;
  }

  lemma {:induction false} OnHandIsCap(shelf: Shelf, b: BatchRef)
    ensures OnHandAt(shelf, b) == if b in OnHandCaps(shelf) then OnHandCaps(shelf)[b] else 0
  {
  }

  /** `post_movement` on one row keeps the projection when it does not oversell it. */
  lemma {:induction false} PostKeeps(s: StockState, slot: Slot, b: BatchRef, kind: MovementType, delta: int)
    requires Projected(s) && 0 <= OnHandAt(ShelfAt(s.shelves, slot), b) + delta
    ensures Projected(ApplyPost(s, slot, b, kind, delta))
  {
    var shelf := ShelfAt(s.shelves, slot);
    var moves := [Movement(slot, b, kind, delta)];
    assert NonNegative(shelf);
    SetNonNegative(s.shelves, slot, Posted(shelf, b, delta));
    forall at, c ensures LedgerSum(moves, at, c) == if at == slot && c == b then delta else 0 {
      assert moves[..0] == [];
    }
    SetLedgered(s, slot, Posted(shelf, b, delta), moves);
  }

  /** It leaves every reservation covered exactly when it takes no more than the
      row's unreserved stock. */
  lemma {:induction false} PostCovers(s: StockState, slot: Slot, b: BatchRef, kind: MovementType, delta: int)
    requires AllCovered(s)
    ensures AllCovered(ApplyPost(s, slot, b, kind, delta)) <==>
            ReservedAt(ShelfAt(s.shelves, slot), b) <= OnHandAt(ShelfAt(s.shelves, slot), b) + delta
  {
    var shelf := ShelfAt(s.shelves, slot);
    assert Covered(shelf);
    PostedCovers(shelf, b, delta);
    CoveredIff(s, slot, Posted(shelf, b, delta), s.ledger + [Movement(slot, b, kind, delta)]);
  }

  lemma {:induction false} CoveredIff(s: StockState, slot: Slot, shelf: Shelf, ledger: seq<Movement>)
    requires AllCovered(s)
    ensures AllCovered(StockState(s.shelves[slot := shelf], ledger)) <==> Covered(shelf)
  {
    ShelfSet(s.shelves, slot, shelf, slot);
    if Covered(shelf) {
      SetCovered(s, slot, shelf, ledger);
    }
  }

  lemma {:induction false} PostedCovers(shelf: Shelf, b: BatchRef, delta: int)
    requires Covered(shelf)
    ensures Covered(Posted(shelf, b, delta)) <==> ReservedAt(shelf, b) <= OnHandAt(shelf, b) + delta
  {
    RowCovers(shelf, b, OnHandAt(shelf, b) + delta, ReservedAt(shelf, b));
  }

  lemma {:induction false} RowCovers(shelf: Shelf, b: BatchRef, onHand: int, reserved: int)
    requires Covered(shelf) && 0 <= reserved
    ensures Covered(shelf[b := Balance(onHand, reserved)]) <==> reserved <= onHand
  {
    if reserved <= onHand {
      CoveredRow(shelf, b, onHand, reserved);
    } else {
      UncoveredRow(shelf, b, onHand, reserved);
    }
  }

  lemma {:induction false} UncoveredRow(shelf: Shelf, b: BatchRef, onHand: int, reserved: int)
    requires onHand < reserved
    ensures !Covered(shelf[b := Balance(onHand, reserved)])
  {
    assert b in shelf[b := Balance(onHand, reserved)];
  }

  lemma {:induction false} CoveredRow(shelf: Shelf, b: BatchRef, onHand: int, reserved: int)
    requires Covered(shelf) && 0 <= reserved <= onHand
    ensures Covered(shelf[b := Balance(onHand, reserved)])
  {
  }

  // --- issue_fefo, line after line ---------------------------------------------------

  function IssueLines(s: StockState, w: Id, lines: seq<Line>, kind: MovementType,
                      plans: seq<seq<Allocation>>): StockState
    requires |plans| == |lines|
  {
    if lines == [] then s
    else
      var n := |lines| - 1;
      ApplyIssue(IssueLines(s, w, lines[..n], kind, plans[..n]), Slot(w, lines[n].product), kind, plans[n])
  }

  ghost predicate IssueLinesOk(s: StockState, w: Id, lines: seq<Line>, asOf: Date, kind: MovementType,
                               plans: seq<seq<Allocation>>) {
    && |plans| == |lines|
    && (lines != [] ==>
          var n := |lines| - 1;
          && IssueLinesOk(s, w, lines[..n], asOf, kind, plans[..n])
          && IssueOk(IssueLines(s, w, lines[..n], kind, plans[..n]), Slot(w, lines[n].product), lines[n].quantity, asOf,
                     plans[n]))
  }

  ghost function UsableIn(s: StockState, slot: Slot, asOf: Date): int {
    UsableTotal(ShelfAt(s.shelves, slot), asOf)
  }

  /** What the shelf can sell, batch by batch in its own date. */
  ghost function SellableIn(s: StockState, slot: Slot, asOf: Date): int {
    Total(Sellable(ShelfAt(s.shelves, slot), asOf))
  }

  lemma {:induction false} SellableInIs(s: StockState, slot: Slot, asOf: Date)
    ensures UsableIn(s, slot, asOf) == SellableIn(s, slot, asOf)
  {
    SellableIsUsable(ShelfAt(s.shelves, slot), asOf);
  }

  /** Every batch an issue may pick is undated or expires after the day. */
  lemma {:induction false} IssueIsFresh(s: StockState, slot: Slot, q: int, asOf: Date, plan: seq<Allocation>)
    requires IssueOk(s, slot, q, asOf, plan)
    ensures AllFresh(plan, asOf)
  {
    UsablePlanIsFresh(AvailableCaps(ShelfAt(s.shelves, slot)), q, plan, asOf);
  }

  ghost function HeldIn(s: StockState, slot: Slot): int {
    HeldTotal(ShelfAt(s.shelves, slot))
  }

  ghost function HeldExpiredIn(s: StockState, slot: Slot, asOf: Date): int {
    HeldExpired(ShelfAt(s.shelves, slot), asOf)
  }

  lemma {:induction false} IssueLinesKeeps(s: StockState, w: Id, lines: seq<Line>, asOf: Date, kind: MovementType,
                                           plans: seq<seq<Allocation>>)
    requires Projected(s) && IssueLinesOk(s, w, lines, asOf, kind, plans)
    ensures Projected(IssueLines(s, w, lines, kind, plans))
    ensures AllCovered(s) ==> AllCovered(IssueLines(s, w, lines, kind, plans))
  {
    if lines != [] {
      var n := |lines| - 1;
      IssueLinesKeeps(s, w, lines[..n], asOf, kind, plans[..n]);
      IssueKeeps(IssueLines(s, w, lines[..n], kind, plans[..n]), Slot(w, lines[n].product), kind,
                 lines[n].quantity, asOf, plans[n]);
    }
  }

  lemma {:induction false} IssueOneEffect(s: StockState, at: Slot, kind: MovementType, q: int, asOf: Date,
                                          plan: seq<Allocation>, slot: Slot)
    requires Projected(s) && IssueOk(s, at, q, asOf, plan)
    ensures UsableIn(ApplyIssue(s, at, kind, plan), slot, asOf) == UsableIn(s, slot, asOf) - if slot == at then q else 0
    ensures HeldIn(ApplyIssue(s, at, kind, plan), slot) == HeldIn(s, slot)
  {
    assert NonNegative(ShelfAt(s.shelves, at));
    ShelfSet(s.shelves, at, Issued(ShelfAt(s.shelves, at), plan), slot);
    IssueEffect(ShelfAt(s.shelves, at), asOf, q, plan);
  }

  lemma {:induction false} IssueLinesEffect(s: StockState, w: Id, lines: seq<Line>, asOf: Date, kind: MovementType,
                                            plans: seq<seq<Allocation>>, slot: Slot)
    requires Projected(s) && IssueLinesOk(s, w, lines, asOf, kind, plans)
    ensures UsableIn(IssueLines(s, w, lines, kind, plans), slot, asOf)
         == UsableIn(s, slot, asOf) - DemandAt(lines, w, slot)
    ensures HeldIn(IssueLines(s, w, lines, kind, plans), slot) == HeldIn(s, slot)
  {
    if lines != [] {
      var n := |lines| - 1;
      IssueLinesEffect(s, w, lines[..n], asOf, kind, plans[..n], slot);
      IssueLinesKeeps(s, w, lines[..n], asOf, kind, plans[..n]);
      IssueOneEffect(IssueLines(s, w, lines[..n], kind, plans[..n]), Slot(w, lines[n].product), kind,
                     lines[n].quantity, asOf, plans[n], slot);
    }
  }

  // --- reserve, line after line -------------------------------------------------------

  function ReserveLines(s: StockState, w: Id, lines: seq<Line>, plans: seq<seq<Allocation>>): StockState
    requires |plans| == |lines|
  {
    if lines == [] then s
    else
      var n := |lines| - 1;
      ApplyReserve(ReserveLines(s, w, lines[..n], plans[..n]), Slot(w, lines[n].product), plans[n])
  }

  ghost predicate ReserveLinesOk(s: StockState, w: Id, lines: seq<Line>, asOf: Date, plans: seq<seq<Allocation>>) {
    && |plans| == |lines|
    && (lines != [] ==>
          var n := |lines| - 1;
          && ReserveLinesOk(s, w, lines[..n], asOf, plans[..n])
          && IssueOk(ReserveLines(s, w, lines[..n], plans[..n]), Slot(w, lines[n].product), lines[n].quantity, asOf,
                     plans[n]))
  }

  lemma {:induction false} ReserveLinesKeeps(s: StockState, w: Id, lines: seq<Line>, asOf: Date,
                                             plans: seq<seq<Allocation>>)
    requires Projected(s) && ReserveLinesOk(s, w, lines, asOf, plans)
    ensures Projected(ReserveLines(s, w, lines, plans))
    ensures AllCovered(s) ==> AllCovered(ReserveLines(s, w, lines, plans))
  {
    if lines != [] {
      var n := |lines| - 1;
      ReserveLinesKeeps(s, w, lines[..n], asOf, plans[..n]);
      ReserveKeeps(ReserveLines(s, w, lines[..n], plans[..n]), Slot(w, lines[n].product),
                   lines[n].quantity, asOf, plans[n]);
    }
  }

  lemma {:induction false} ReserveOneEffect(s: StockState, at: Slot, q: int, asOf: Date, plan: seq<Allocation>,
                                            slot: Slot)
    requires Projected(s) && IssueOk(s, at, q, asOf, plan)
    ensures UsableIn(ApplyReserve(s, at, plan), slot, asOf) == UsableIn(s, slot, asOf) - if slot == at then q else 0
    ensures HeldIn(ApplyReserve(s, at, plan), slot) == HeldIn(s, slot) + if slot == at then q else 0
  {
    assert NonNegative(ShelfAt(s.shelves, at));
    ShelfSet(s.shelves, at, Reserved(ShelfAt(s.shelves, at), plan), slot);
    ReserveEffect(ShelfAt(s.shelves, at), asOf, q, plan);
  }

  lemma {:induction false} ReserveLinesEffect(s: StockState, w: Id, lines: seq<Line>, asOf: Date,
                                              plans: seq<seq<Allocation>>, slot: Slot)
    requires Projected(s) && ReserveLinesOk(s, w, lines, asOf, plans)
    ensures UsableIn(ReserveLines(s, w, lines, plans), slot, asOf)
         == UsableIn(s, slot, asOf) - DemandAt(lines, w, slot)
    ensures HeldIn(ReserveLines(s, w, lines, plans), slot)
         == HeldIn(s, slot) + DemandAt(lines, w, slot)
  {
    if lines != [] {
      var n := |lines| - 1;
      ReserveLinesEffect(s, w, lines[..n], asOf, plans[..n], slot);
      ReserveLinesKeeps(s, w, lines[..n], asOf, plans[..n]);
      ReserveOneEffect(ReserveLines(s, w, lines[..n], plans[..n]), Slot(w, lines[n].product),
                       lines[n].quantity, asOf, plans[n], slot);
    }
  }

  // --- dispatch: release, then issue, line after line ----------------------------------

  datatype DispatchPlan = DispatchPlan(release: seq<Allocation>, issue: seq<Allocation>)

  function DispatchLines(s: StockState, w: Id, lines: seq<Line>, plans: seq<DispatchPlan>): StockState
    requires |plans| == |lines|
  {
    if lines == [] then s
    else
      var n := |lines| - 1;
      var slot := Slot(w, lines[n].product);
      DispatchOne(DispatchLines(s, w, lines[..n], plans[..n]), slot, plans[n])
  }

  ghost predicate DispatchLinesOk(s: StockState, w: Id, lines: seq<Line>, asOf: Date, plans: seq<DispatchPlan>) {
    && |plans| == |lines|
    && (lines != [] ==>
          var n := |lines| - 1;
          var slot := Slot(w, lines[n].product);
          var before := DispatchLines(s, w, lines[..n], plans[..n]);
          && DispatchLinesOk(s, w, lines[..n], asOf, plans[..n])
          && ReleaseOk(before, slot, lines[n].quantity, plans[n].release)
          && IssueOk(ApplyRelease(before, slot, plans[n].release), slot, lines[n].quantity, asOf, plans[n].issue))
  }

  lemma {:induction false} DispatchLinesKeeps(s: StockState, w: Id, lines: seq<Line>, asOf: Date,
                                              plans: seq<DispatchPlan>)
    requires Projected(s) && DispatchLinesOk(s, w, lines, asOf, plans)
    ensures Projected(DispatchLines(s, w, lines, plans))
    ensures AllCovered(s) ==> AllCovered(DispatchLines(s, w, lines, plans))
  {
    if lines != [] {
      var n := |lines| - 1;
      var slot := Slot(w, lines[n].product);
      var before := DispatchLines(s, w, lines[..n], plans[..n]);
      DispatchLinesKeeps(s, w, lines[..n], asOf, plans[..n]);
      ReleaseKeeps(before, slot, lines[n].quantity, plans[n].release);
      IssueKeeps(ApplyRelease(before, slot, plans[n].release), slot, WholesaleSale, lines[n].quantity, asOf,
                 plans[n].issue);
    }
  }

  function DispatchOne(s: StockState, at: Slot, plan: DispatchPlan): StockState {
    ApplyIssue(ApplyRelease(s, at, plan.release), at, WholesaleSale, plan.issue)
  }

  /** Dispatching `d` units of a product moves its totals from `s` to `t`: the
      pool shrinks by `d`, the expired part of the pool first, and that expired
      part is paid for out of unreserved stock. */
  ghost predicate Shipped(s: StockState, t: StockState, slot: Slot, d: int, asOf: Date) {
    var stale := Min(d, HeldExpiredIn(s, slot, asOf));
    && HeldIn(t, slot) == HeldIn(s, slot) - d
    && HeldExpiredIn(t, slot, asOf) == HeldExpiredIn(s, slot, asOf) - stale
    && UsableIn(t, slot, asOf) == UsableIn(s, slot, asOf) - stale
  }

  lemma {:induction false} DispatchOneEffect(s: StockState, at: Slot, q: int, asOf: Date, plan: DispatchPlan,
                                             slot: Slot, e: int)
    requires Projected(s) && AllCovered(s) && ReleaseOk(s, at, q, plan.release)
    requires IssueOk(ApplyRelease(s, at, plan.release), at, q, asOf, plan.issue)
    requires e == if slot == at then q else 0
    ensures Shipped(s, DispatchOne(s, at, plan), slot, e, asOf)
  {
    HeldSane(s, slot, asOf);
    var shelf := ShelfAt(s.shelves, at);
    var released := ApplyRelease(s, at, plan.release);
    assert NonNegative(shelf) && Covered(shelf);
    ReleaseKeeps(s, at, q, plan.release);
    ShelfSet(s.shelves, at, Released(shelf, plan.release), slot);
    IssueOneEffect(released, at, WholesaleSale, q, asOf, plan.issue, slot);
    IssueHeldExpired(released, at, plan.issue, slot, asOf);
    if slot == at {
      ReleaseEffect(shelf, asOf, q, plan.release);
      ReleaseFrees(shelf, asOf, q, plan.release);
    }
  }

  lemma {:induction false} IssueHeldExpired(s: StockState, at: Slot, plan: seq<Allocation>, slot: Slot, asOf: Date)
    ensures HeldExpiredIn(ApplyIssue(s, at, WholesaleSale, plan), slot, asOf) == HeldExpiredIn(s, slot, asOf)
  {
    var shelf := ShelfAt(s.shelves, at);
    ShelfSet(s.shelves, at, Issued(shelf, plan), slot);
    HeldExpiredSame(shelf, Issued(shelf, plan), asOf);
  }

  lemma {:induction false} HeldExpiredSame(a: Shelf, b: Shelf, asOf: Date)
    requires HeldCaps(a) == HeldCaps(b)
    ensures HeldExpired(a, asOf) == HeldExpired(b, asOf)
  {
  }

  lemma {:induction false} HeldSane(s: StockState, slot: Slot, asOf: Date)
    requires Projected(s)
    ensures 0 <= HeldExpiredIn(s, slot, asOf) <= HeldIn(s, slot)
  {
    assert NonNegative(ShelfAt(s.shelves, slot));
    HeldNonNegative(ShelfAt(s.shelves, slot), asOf);
  }

  lemma {:induction false} ShippedTwice(s: StockState, t: StockState, u: StockState, slot: Slot, d: nat, e: nat,
                                        asOf: Date)
    requires Shipped(s, t, slot, d, asOf) && Shipped(t, u, slot, e, asOf)
    requires 0 <= HeldExpiredIn(s, slot, asOf)
    ensures Shipped(s, u, slot, d + e, asOf)
  {
  }

  lemma {:induction false} DispatchLinesEffect(s: StockState, w: Id, lines: seq<Line>, asOf: Date,
                                               plans: seq<DispatchPlan>, slot: Slot)
    requires Projected(s) && AllCovered(s) && DispatchLinesOk(s, w, lines, asOf, plans) && AllPositive(lines)
    ensures 0 <= DemandAt(lines, w, slot)
    ensures Shipped(s, DispatchLines(s, w, lines, plans), slot, DemandAt(lines, w, slot), asOf)
  {
    hide UsableIn, HeldIn, HeldExpiredIn, IssueOk, ReleaseOk, Projected, AllCovered;
    HeldSane(s, slot, asOf);
    if lines != [] {
      var n := |lines| - 1;
      var at := Slot(w, lines[n].product);
      var before := DispatchLines(s, w, lines[..n], plans[..n]);
      DispatchLinesEffect(s, w, lines[..n], asOf, plans[..n], slot);
      DispatchLinesKeeps(s, w, lines[..n], asOf, plans[..n]);
      var e := if slot == at then lines[n].quantity else 0;
      DispatchOneEffect(before, at, lines[n].quantity, asOf, plans[n], slot, e);
      DemandAtSnoc(lines, w, slot);
      ShippedTwice(s, before, DispatchOne(before, at, plans[n]), slot, DemandAt(lines[..n], w, slot), e, asOf);
    }
  }

  // --- Covered or not -------------------------------------------------------------------

  lemma {:induction false} ReleaseOneHolds(s: StockState, at: Slot, q: int, asOf: Date, plan: seq<Allocation>,
                                           slot: Slot)
    requires Projected(s) && ReleaseOk(s, at, q, plan)
    ensures HeldIn(ApplyRelease(s, at, plan), slot) == HeldIn(s, slot) - if slot == at then q else 0
    ensures UsableIn(s, slot, asOf) <= UsableIn(ApplyRelease(s, at, plan), slot, asOf)
  {
    var shelf := ShelfAt(s.shelves, at);
    assert NonNegative(shelf);
    ReleaseEffect(shelf, asOf, q, plan);
    ReleaseNeverLowers(shelf, asOf, q, plan);
    ShelfSet(s.shelves, at, Released(shelf, plan), slot);
  }

  /** In any world a dispatch takes its lines out of the pool, and out of what is
      sellable no more than that. */
  lemma {:induction false} DispatchLinesHold(s: StockState, w: Id, lines: seq<Line>, asOf: Date,
                                             plans: seq<DispatchPlan>, slot: Slot)
    requires Projected(s) && DispatchLinesOk(s, w, lines, asOf, plans)
    ensures HeldIn(DispatchLines(s, w, lines, plans), slot) == HeldIn(s, slot) - DemandAt(lines, w, slot)
    ensures UsableIn(s, slot, asOf) - DemandAt(lines, w, slot)
         <= UsableIn(DispatchLines(s, w, lines, plans), slot, asOf)
  {
    hide UsableIn, HeldIn, IssueOk, ReleaseOk, Projected;
    if lines != [] {
      var n := |lines| - 1;
      var at, q := Slot(w, lines[n].product), lines[n].quantity;
      var before := DispatchLines(s, w, lines[..n], plans[..n]);
      DispatchLinesHold(s, w, lines[..n], asOf, plans[..n], slot);
      DispatchLinesKeeps(s, w, lines[..n], asOf, plans[..n]);
      DemandAtSnoc(lines, w, slot);
      ReleaseOneHolds(before, at, q, asOf, plans[n].release, slot);
      ReleaseKeeps(before, at, q, plans[n].release);
      IssueOneEffect(ApplyRelease(before, at, plans[n].release), at, WholesaleSale, q, asOf, plans[n].issue, slot);
    }
  }

  // --- Which rows the ledger gains --------------------------------------------------------

  /** The ledger gained rows of one type at one warehouse, all of them outgoing. */
  ghost predicate MovesOut(before: seq<Movement>, after: seq<Movement>, w: Id, kind: MovementType) {
    && before <= after
    && forall k :: |before| <= k < |after| ==>
         after[k].kind == kind && after[k].slot.warehouse == w && after[k].quantity < 0
  }

  lemma {:induction false} OutgoingRows(slot: Slot, kind: MovementType, plan: seq<Allocation>)
    ensures |Outgoing(slot, kind, plan)| == |plan|
    ensures forall k :: 0 <= k < |plan| ==>
              Outgoing(slot, kind, plan)[k] == Movement(slot, plan[k].batch, kind, -plan[k].quantity)
  {
    if plan != [] {
      OutgoingRows(slot, kind, plan[..|plan| - 1]);
    }
  }

  lemma {:induction false} IssueMovesOut(s: StockState, slot: Slot, kind: MovementType, q: int, asOf: Date,
                                         plan: seq<Allocation>)
    requires IssueOk(s, slot, q, asOf, plan)
    ensures MovesOut(s.ledger, ApplyIssue(s, slot, kind, plan).ledger, slot.warehouse, kind)
  {
    OutgoingRows(slot, kind, plan);
  }

  lemma {:induction false} MovesOutThen(a: seq<Movement>, b: seq<Movement>, c: seq<Movement>, w: Id, kind: MovementType)
    requires MovesOut(a, b, w, kind) && MovesOut(b, c, w, kind)
    ensures MovesOut(a, c, w, kind)
  {
  }

  lemma {:induction false} IssueLinesMoveOut(s: StockState, w: Id, lines: seq<Line>, asOf: Date, kind: MovementType,
                                             plans: seq<seq<Allocation>>)
    requires IssueLinesOk(s, w, lines, asOf, kind, plans)
    ensures MovesOut(s.ledger, IssueLines(s, w, lines, kind, plans).ledger, w, kind)
  {
    if lines != [] {
      hide MovesOut, IssueOk, ApplyIssue;
      var n := |lines| - 1;
      var before := IssueLines(s, w, lines[..n], kind, plans[..n]);
      IssueLinesMoveOut(s, w, lines[..n], asOf, kind, plans[..n]);
      IssueMovesOut(before, Slot(w, lines[n].product), kind, lines[n].quantity, asOf, plans[n]);
      MovesOutThen(s.ledger, before.ledger, IssueLines(s, w, lines, kind, plans).ledger, w, kind);
    } else {
      NothingMoves(s.ledger, w, kind);
    }
  }

  lemma {:induction false} NothingMoves(ledger: seq<Movement>, w: Id, kind: MovementType)
    ensures MovesOut(ledger, ledger, w, kind)
  {
  }

  lemma {:induction false} DispatchLinesMoveOut(s: StockState, w: Id, lines: seq<Line>, asOf: Date,
                                                plans: seq<DispatchPlan>)
    requires DispatchLinesOk(s, w, lines, asOf, plans)
    ensures MovesOut(s.ledger, DispatchLines(s, w, lines, plans).ledger, w, WholesaleSale)
  {
    if lines != [] {
      hide MovesOut, IssueOk, ReleaseOk, ApplyIssue;
      var n := |lines| - 1;
      var slot := Slot(w, lines[n].product);
      var before := DispatchLines(s, w, lines[..n], plans[..n]);
      DispatchLinesMoveOut(s, w, lines[..n], asOf, plans[..n]);
      IssueMovesOut(ApplyRelease(before, slot, plans[n].release), slot, WholesaleSale, lines[n].quantity, asOf,
                    plans[n].issue);
      MovesOutThen(s.ledger, before.ledger, DispatchLines(s, w, lines, plans).ledger, w, WholesaleSale);
    } else {
      NothingMoves(s.ledger, w, WholesaleSale);
    }
  }

  // --- What leaves a warehouse ------------------------------------------------------------

  ghost function OnHandIn(s: StockState, slot: Slot): int {
    OnHandTotal(ShelfAt(s.shelves, slot))
  }

  /** From `s` to `t` the warehouse lost exactly the lines, product by product, and
      nothing else changed on hand. */
  ghost predicate LinesLeft(s: StockState, t: StockState, w: Id, lines: seq<Line>) {
    forall slot ::
      OnHandIn(t, slot) == OnHandIn(s, slot) - if slot.warehouse == w then Demand(lines, slot.product) else 0
  }

  lemma {:induction false} IssueOneOnHand(s: StockState, at: Slot, kind: MovementType, q: int, asOf: Date,
                                          plan: seq<Allocation>, slot: Slot)
    requires Projected(s) && IssueOk(s, at, q, asOf, plan)
    ensures OnHandIn(ApplyIssue(s, at, kind, plan), slot) == OnHandIn(s, slot) - if slot == at then q else 0
  {
    assert NonNegative(ShelfAt(s.shelves, at));
    ShelfSet(s.shelves, at, Issued(ShelfAt(s.shelves, at), plan), slot);
    IssueEffect(ShelfAt(s.shelves, at), asOf, q, plan);
  }

  lemma {:induction false} ReleaseOneOnHand(s: StockState, at: Slot, q: int, plan: seq<Allocation>, slot: Slot)
    requires Projected(s) && ReleaseOk(s, at, q, plan)
    ensures OnHandIn(ApplyRelease(s, at, plan), slot) == OnHandIn(s, slot)
  {
    assert NonNegative(ShelfAt(s.shelves, at));
    ShelfSet(s.shelves, at, Released(ShelfAt(s.shelves, at), plan), slot);
    ReleaseEffect(ShelfAt(s.shelves, at), 0, q, plan);
  }

  lemma {:induction false} IssueLinesOnHand(s: StockState, w: Id, lines: seq<Line>, asOf: Date, kind: MovementType,
                                            plans: seq<seq<Allocation>>, slot: Slot)
    requires Projected(s) && IssueLinesOk(s, w, lines, asOf, kind, plans)
    ensures OnHandIn(IssueLines(s, w, lines, kind, plans), slot) == OnHandIn(s, slot) - DemandAt(lines, w, slot)
  {
    if lines != [] {
      hide OnHandIn, IssueOk, Projected, ApplyIssue;
      var n := |lines| - 1;
      IssueLinesOnHand(s, w, lines[..n], asOf, kind, plans[..n], slot);
      IssueLinesKeeps(s, w, lines[..n], asOf, kind, plans[..n]);
      DemandAtSnoc(lines, w, slot);
      IssueOneOnHand(IssueLines(s, w, lines[..n], kind, plans[..n]), Slot(w, lines[n].product), kind,
                     lines[n].quantity, asOf, plans[n], slot);
    }
  }

  /** Issuing a document's lines takes each product's summed quantity, no more. */
  lemma {:induction false} IssueTakesLines(s: StockState, w: Id, lines: seq<Line>, asOf: Date, kind: MovementType,
                                           plans: seq<seq<Allocation>>)
    requires Projected(s) && IssueLinesOk(s, w, lines, asOf, kind, plans)
    ensures LinesLeft(s, IssueLines(s, w, lines, kind, plans), w, lines)
  {
    assert |plans| == |lines|;
    hide OnHandIn, IssueLinesOk, IssueLines, Projected, Demand;
    forall slot
      ensures OnHandIn(IssueLines(s, w, lines, kind, plans), slot) == OnHandIn(s, slot) - DemandAt(lines, w, slot)
    {
      IssueLinesOnHand(s, w, lines, asOf, kind, plans, slot);
    }
  }

  lemma {:induction false} DispatchLinesOnHand(s: StockState, w: Id, lines: seq<Line>, asOf: Date,
                                               plans: seq<DispatchPlan>, slot: Slot)
    requires Projected(s) && DispatchLinesOk(s, w, lines, asOf, plans)
    ensures OnHandIn(DispatchLines(s, w, lines, plans), slot) == OnHandIn(s, slot) - DemandAt(lines, w, slot)
  {
    if lines != [] {
      hide OnHandIn, IssueOk, ReleaseOk, Projected, ApplyIssue, ApplyRelease;
      var n := |lines| - 1;
      var at, q := Slot(w, lines[n].product), lines[n].quantity;
      var before := DispatchLines(s, w, lines[..n], plans[..n]);
      DispatchLinesOnHand(s, w, lines[..n], asOf, plans[..n], slot);
      DispatchLinesKeeps(s, w, lines[..n], asOf, plans[..n]);
      DemandAtSnoc(lines, w, slot);
      ReleaseKeeps(before, at, q, plans[n].release);
      ReleaseOneOnHand(before, at, q, plans[n].release, slot);
      IssueOneOnHand(ApplyRelease(before, at, plans[n].release), at, WholesaleSale, q, asOf, plans[n].issue, slot);
    }
  }

  /** So does a dispatch, out of stock and out of the pool. */
  lemma {:induction false} DispatchTakesLines(s: StockState, w: Id, lines: seq<Line>, asOf: Date,
                                              plans: seq<DispatchPlan>)
    requires Projected(s) && DispatchLinesOk(s, w, lines, asOf, plans)
    ensures var t := DispatchLines(s, w, lines, plans);
            LinesLeft(s, t, w, lines)
            && forall slot ::
                 HeldIn(t, slot) == HeldIn(s, slot) - if slot.warehouse == w then Demand(lines, slot.product) else 0
  {
    assert |plans| == |lines|;
    hide OnHandIn, HeldIn, DispatchLinesOk, DispatchLines, Projected, Demand;
    var t := DispatchLines(s, w, lines, plans);
    forall slot
      ensures OnHandIn(t, slot) == OnHandIn(s, slot) - DemandAt(lines, w, slot)
      ensures HeldIn(t, slot) == HeldIn(s, slot) - DemandAt(lines, w, slot)
    {
      DispatchLinesOnHand(s, w, lines, asOf, plans, slot);
      DispatchLinesHold(s, w, lines, asOf, plans, slot);
    }
  }
}
