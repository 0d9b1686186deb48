/** backend/app/modules/inventory/repository.py and service.py: the stock tables
    and the operations that change them. A query returns its rows in any order. */
module Inventory {
  import opened Prelude
  import opened Fefo
  import opened Stock
  import opened StockLines

  datatype InventoryError =
    | ZeroSignedQuantity
    | QuantityNotPositive
    | InsufficientForMovement
    | NotEnoughUsable
    | DirectionMismatch
    | UnsupportedType
    | OverRelease

  class InventoryRepository {
    var shelves: map<Slot, Shelf>
    var ledger: seq<Movement>

    constructor ()
      ensures shelves == map[] && ledger == []
    {
      shelves, ledger := map[], [];
    }

    function View(): StockState
      reads this
    {
      StockState(shelves, ledger)
    }

    ghost predicate Valid()
      reads this
    {
      Projected(View())
    }

    method GetBalance(slot: Slot, b: BatchRef) returns (r: Option<Balance>)
      ensures r == if b in ShelfAt(shelves, slot) then Some(ShelfAt(shelves, slot)[b]) else None
    {
      var shelf := ShelfAt(shelves, slot);
      r := if b in shelf then Some(shelf[b]) else None;
    }

    method AddMovement(m: Movement)
      modifies this`ledger
      ensures ledger == old(ledger) + [m]
    {
      ledger := ledger + [m];
    }

    method UpsertBalanceDelta(slot: Slot, b: BatchRef, delta: int)
      modifies this`shelves
      ensures shelves == old(shelves)[slot := Posted(ShelfAt(old(shelves), slot), b, delta)]
    {
      var balance := GetBalance(slot, b);
      var row := if balance.Some? then balance.value else Balance(0, 0);
      shelves := shelves[slot := ShelfAt(shelves, slot)[b := Balance(row.onHand + delta, row.reserved)]];
    }

    method AdjustReserved(slot: Slot, b: BatchRef, delta: int) returns (ok: bool)
      modifies this`shelves
      ensures ok <==> b in ShelfAt(old(shelves), slot)
      ensures ok ==>
                var shelf := ShelfAt(old(shelves), slot);
                shelves == old(shelves)[slot := shelf[b := Balance(shelf[b].onHand, shelf[b].reserved + delta)]]
      ensures !ok ==> shelves == old(shelves)
    {
      var balance := GetBalance(slot, b);
      if balance.None? {
        return false;
      }
      var row := balance.value;
      shelves := shelves[slot := ShelfAt(shelves, slot)[b := Balance(row.onHand, row.reserved + delta)]];
      ok := true;
    }

    /** Rows with something available, in whatever order the database returns. */
    method BatchAvailabilityRows(slot: Slot) returns (rows: seq<BatchAvailability>)
      ensures Lists(rows, AvailableCaps(ShelfAt(shelves, slot)))
    {
      rows := PositiveRows(AvailableCaps(ShelfAt(shelves, slot)));
    }

    /** Rows that hold a reservation, in whatever order. */
    method ReservedBalances(slot: Slot) returns (rows: seq<BatchAvailability>)
      requires Valid()
      ensures Lists(rows, HeldCaps(ShelfAt(shelves, slot)))
    {
      assert NonNegative(ShelfAt(shelves, slot));
      rows := PositiveRows(HeldCaps(ShelfAt(shelves, slot)));
    }

    /** Undo everything since the snapshot (session rollback). */
    method Rollback(snapshot: StockState)
      modifies this
      ensures View() == snapshot
    {
      shelves, ledger := snapshot.shelves, snapshot.ledger;
    }
  }

  method PositiveRows(caps: map<BatchRef, int>) returns (rows: seq<BatchAvailability>)
    requires forall b :: b in caps ==> 0 <= caps[b]
    ensures Lists(rows, caps)
  {
    rows := [];
    var todo := caps.Keys;
    while todo != {}
      invariant todo <= caps.Keys
      invariant Distinct(rows)
      invariant forall i :: 0 <= i < |rows| ==>
                  rows[i].batch in caps && rows[i].batch !in todo && 0 < rows[i].available == caps[rows[i].batch]
      invariant forall b :: b in caps && b !in todo && 0 < caps[b] ==> BatchAvailability(b, caps[b]) in rows
    {
      var b :| b in todo;
      todo := todo - {b};
      if 0 < caps[b] {
        rows := rows + [BatchAvailability(b, caps[b])];
      }
    }
  }

  // --- What the loops build ------------------------------------------------------------

  lemma {:induction false} IssuedSnoc(shelf: Shelf, plan: seq<Allocation>, a: Allocation)
    requires a.batch in shelf
    ensures Issued(shelf, plan + [a]) == Posted(Issued(shelf, plan), a.batch, -a.quantity)
  {
    assert (plan + [a])[..|plan|] == plan;
  }

  lemma {:induction false} IssuedNothing(shelf: Shelf)
    ensures Issued(shelf, []) == shelf && Reserved(shelf, []) == shelf && Released(shelf, []) == shelf
  {
  }

  lemma {:induction false} ReservedSnoc(shelf: Shelf, plan: seq<Allocation>, a: Allocation)
    requires a.batch in shelf
    ensures var before := Reserved(shelf, plan);
            Reserved(shelf, plan + [a])
            == before[a.batch := Balance(before[a.batch].onHand, before[a.batch].reserved + a.quantity)]
  {
    assert (plan + [a])[..|plan|] == plan;
  }

  lemma {:induction false} ReleasedSnoc(shelf: Shelf, plan: seq<Allocation>, a: Allocation)
    requires a.batch in shelf
    ensures var before := Released(shelf, plan);
            Released(shelf, plan + [a])
            == before[a.batch := Balance(before[a.batch].onHand, before[a.batch].reserved + -a.quantity)]
  {
    assert (plan + [a])[..|plan|] == plan;
  }

  lemma {:induction false} OutgoingSnoc(slot: Slot, kind: MovementType, plan: seq<Allocation>, a: Allocation)
    ensures Outgoing(slot, kind, plan + [a])
         == Outgoing(slot, kind, plan) + [Movement(slot, a.batch, kind, -a.quantity)]
  {
    assert (plan + [a])[..|plan|] == plan;
  }

  /** Posting one more allocation of a plan. */
  lemma {:induction false} IssueSnoc(s: StockState, slot: Slot, kind: MovementType, plan: seq<Allocation>,
                                     a: Allocation)
    requires a.batch in ShelfAt(s.shelves, slot)
    ensures ApplyPost(ApplyIssue(s, slot, kind, plan), slot, a.batch, kind, -a.quantity)
         == ApplyIssue(s, slot, kind, plan + [a])
  {
    var shelf := ShelfAt(s.shelves, slot);
    var t := ApplyIssue(s, slot, kind, plan);
    IssuedSnoc(shelf, plan, a);
    OutgoingSnoc(slot, kind, plan, a);
    assert ShelfAt(t.shelves, slot) == Issued(shelf, plan);
    assert s.shelves[slot := Issued(shelf, plan)][slot := Issued(shelf, plan + [a])]
        == s.shelves[slot := Issued(shelf, plan + [a])];
  }

  lemma {:induction false} IssueNothing(s: StockState, slot: Slot, kind: MovementType)
    requires slot in s.shelves
    ensures ApplyIssue(s, slot, kind, []) == s
    ensures ApplyReserve(s, slot, []) == s && ApplyRelease(s, slot, []) == s
  {
    IssuedNothing(s.shelves[slot]);
    assert s.shelves[slot := s.shelves[slot]] == s.shelves;
  }

  /** When the k-th allocation of a plan is posted, its row still holds it. */
  lemma {:induction false} NextFits(s: StockState, slot: Slot, q: int, asOf: Date, kind: MovementType,
                                    plan: seq<Allocation>, k: nat)
    requires Projected(s) && IssueOk(s, slot, q, asOf, plan) && k < |plan|
    ensures plan[k].batch in ShelfAt(s.shelves, slot)
    ensures 0 < plan[k].quantity
         <= OnHandAt(ShelfAt(ApplyIssue(s, slot, kind, plan[..k]).shelves, slot), plan[k].batch)
  {
    var shelf := ShelfAt(s.shelves, slot);
    assert NonNegative(shelf);
    TakenNothing(plan[..k], plan[k].batch);
    assert ShelfAt(ApplyIssue(s, slot, kind, plan[..k]).shelves, slot) == Issued(shelf, plan[..k]);
  }

  /** The signed change one movement makes, or why it is refused. */
  function DeltaOf(kind: MovementType, baseQuantity: int, signedQuantity: Option<int>): Result<int, InventoryError> {
    if MovementDirection(kind) == 0 then
      if signedQuantity.None? || signedQuantity.value == 0 then Err(ZeroSignedQuantity) else Ok(signedQuantity.value)
    else if baseQuantity <= 0 then Err(QuantityNotPositive)
    else Ok(baseQuantity * MovementDirection(kind))
  }

  /** The movement types the adjustment endpoint admits (inventory/api.py:307-312). */
  predicate IsAdjustmentType(kind: MovementType) {
    kind.Adjustment? || kind.Reconciliation? || kind.Damage? || kind.Expiry?
  }

  class InventoryService {
    const repo: InventoryRepository

    constructor (repo: InventoryRepository)
      ensures this.repo == repo
    {
      this.repo := repo;
    }

    method PostMovement(slot: Slot, kind: MovementType, baseQuantity: int, b: BatchRef, signedQuantity: Option<int>)
      returns (r: Result<int, InventoryError>)
      requires repo.Valid()
      modifies repo
      ensures repo.Valid()
      ensures var delta := DeltaOf(kind, baseQuantity, signedQuantity);
              && (delta.Err? ==> r == delta)
              && (r.Ok? <==> delta.Ok? && 0 <= OnHandAt(ShelfAt(old(repo.shelves), slot), b) + delta.value)
              && (r.Ok? ==> r == delta && repo.View() == ApplyPost(old(repo.View()), slot, b, kind, delta.value))
      ensures r.Ok? ==> && SignOk(kind, r.value) && repo.ledger == old(repo.ledger) + [Movement(slot, b, kind, r.value)]
                        && (if kind.Adjustment? || kind.Reconciliation? then signedQuantity == Some(r.value)
                            else r.value == baseQuantity || r.value == -baseQuantity)
      ensures r.Err? ==> repo.View() == old(repo.View())
    {
      var d := DeltaOf(kind, baseQuantity, signedQuantity);
      if d.Err? {
        return d;
      }
      var delta := d.value;
      assert NonNegative(ShelfAt(repo.shelves, slot));
      if delta < 0 {
        var balance := repo.GetBalance(slot, b);
        var onHand := if balance.Some? then balance.value.onHand else 0;
        if onHand + delta < 0 {
          return Err(InsufficientForMovement);
        }
      }
      PostKeeps(repo.View(), slot, b, kind, delta);
      repo.AddMovement(Movement(slot, b, kind, delta));
      repo.UpsertBalanceDelta(slot, b, delta);
      r := Ok(delta);
    }

    method Available(slot: Slot, asOf: Date) returns (q: int)
      ensures q == UsableIn(repo.View(), slot, asOf) == SellableIn(repo.View(), slot, asOf)
    {
      SellableInIs(repo.View(), slot, asOf);
      var rows := repo.BatchAvailabilityRows(slot);
      q := 0;
      for i := 0 to |rows|
        invariant q == SumAvailable(Usable(rows[..i], asOf))
      {
        UsableSum(rows, i, asOf);
        if IsUsable(rows[i], asOf) {
          q := q + rows[i].available;
        }
      }
      assert rows[..|rows|] == rows;
      FefoPlanIsEarliestFirst(rows, AvailableCaps(ShelfAt(repo.shelves, slot)), 0, asOf);
    }

    /** Post a plan, one reducing movement per batch. */
    method PostReductions(slot: Slot, kind: MovementType, allocations: seq<Allocation>, ghost q: int, ghost asOf: Date)
      requires repo.Valid() && MovementDirection(kind) <= 0
      requires IssueOk(repo.View(), slot, q, asOf, allocations)
      modifies repo
      ensures repo.Valid()
      ensures repo.View() == ApplyIssue(old(repo.View()), slot, kind, allocations)
    {
      hide IssueOk, Projected, ApplyIssue, ApplyPost, OnHandAt, ShelfAt;
      ghost var s := repo.View();
      PlanNeedsShelf(s, slot, q, asOf, allocations);
      IssueNothing(s, slot, kind);
      assert allocations[..0] == [];
      for k := 0 to |allocations|
        invariant repo.Valid()
        invariant repo.View() == ApplyIssue(s, slot, kind, allocations[..k])
      {
        var a := allocations[k];
        NextFits(s, slot, q, asOf, kind, allocations, k);
        var signed := if MovementDirection(kind) == 0 then Some(-a.quantity) else None;
        var posted := PostMovement(slot, kind, a.quantity, a.batch, signed);
        IssueSnoc(s, slot, kind, allocations[..k], a);
        assert allocations[..k + 1] == allocations[..k] + [a];
      }
      assert allocations[..|allocations|] == allocations;
    }

    /** Deduct first-expiry-first-out; succeeds exactly when the usable stock covers
        the request, whatever order the rows come in. */
    method IssueFefo(slot: Slot, baseQuantity: int, kind: MovementType, asOf: Date)
      returns (r: Result<seq<Allocation>, InventoryError>)
      requires repo.Valid() && MovementDirection(kind) == -1
      modifies repo
      ensures repo.Valid()
      ensures r.Ok? <==> 0 < baseQuantity <= UsableIn(old(repo.View()), slot, asOf)
      ensures r.Ok? <==> 0 < baseQuantity <= SellableIn(old(repo.View()), slot, asOf)
      ensures r.Ok? ==>
                && IssueOk(old(repo.View()), slot, baseQuantity, asOf, r.value) && AllFresh(r.value, asOf)
                && repo.View() == ApplyIssue(old(repo.View()), slot, kind, r.value)
                && MovesOut(old(repo.ledger), repo.ledger, slot.warehouse, kind)
      ensures r.Err? ==> repo.View() == old(repo.View())
    {
      SellableInIs(repo.View(), slot, asOf);
      r := ChoosePlan(slot, baseQuantity, asOf);
      if r.Ok? {
        IssueIsFresh(repo.View(), slot, baseQuantity, asOf, r.value);
        IssueMovesOut(repo.View(), slot, kind, baseQuantity, asOf, r.value);
        PostReductions(slot, kind, r.value, baseQuantity, asOf);
      }
    }

    /** `batch_availability` followed by `allocate_fefo`. */
    method ChoosePlan(slot: Slot, q: int, asOf: Date) returns (r: Result<seq<Allocation>, InventoryError>)
      requires repo.Valid()
      ensures r.Ok? <==> 0 < q <= UsableIn(repo.View(), slot, asOf)
      ensures r.Ok? ==> IssueOk(repo.View(), slot, q, asOf, r.value)
    {
      var rows := repo.BatchAvailabilityRows(slot);
      FefoPlanIsEarliestFirst(rows, AvailableCaps(ShelfAt(repo.shelves, slot)), q, asOf);
      UsableIsFresh(rows, asOf);
      var plan := AllocateFefo(rows, q, asOf);
      match plan
      case Ok(p) => r := Ok(p);
      case Err(NonPositiveRequest) => r := Err(QuantityNotPositive);
      case Err(InsufficientStock(_, _)) => r := Err(NotEnoughUsable);
    }

    /** A correction: additions land on the un-batched row, reductions are taken
        like a sale. */
    method Adjust(slot: Slot, signedQuantity: int, kind: MovementType, asOf: Date)
      returns (r: Result<seq<Allocation>, InventoryError>)
      requires repo.Valid() && IsAdjustmentType(kind)
      modifies repo
      ensures repo.Valid()
      ensures r.Ok? <==>
              || (0 < signedQuantity && (kind.Adjustment? || kind.Reconciliation?))
              || (signedQuantity < 0 && -signedQuantity <= UsableIn(old(repo.View()), slot, asOf))
      ensures r.Ok? && 0 < signedQuantity ==>
                repo.View() == ApplyPost(old(repo.View()), slot, None, kind, signedQuantity)
      ensures r.Ok? && signedQuantity < 0 ==>
                && IssueOk(old(repo.View()), slot, -signedQuantity, asOf, r.value)
                && repo.View() == ApplyIssue(old(repo.View()), slot, kind, r.value)
                && MovesOut(old(repo.ledger), repo.ledger, slot.warehouse, kind)
      ensures r.Err? ==> repo.View() == old(repo.View())
    {
      if signedQuantity == 0 {
        return Err(ZeroSignedQuantity);
      }
      if 0 < signedQuantity {
        if MovementDirection(kind) < 0 {
          return Err(DirectionMismatch);
        }
        assert NonNegative(ShelfAt(repo.shelves, slot));
        var posted := PostMovement(slot, kind, signedQuantity, None, Some(signedQuantity));
        return Ok([]);
      }
      r := ChoosePlan(slot, -signedQuantity, asOf);
      if r.Ok? {
        IssueMovesOut(repo.View(), slot, kind, -signedQuantity, asOf, r.value);
        PostReductions(slot, kind, r.value, -signedQuantity, asOf);
      }
    }

    /** The adjustment endpoint (inventory/api.py:307-330): four types only, and damage
        and expiry always reduce. */
    method CreateAdjustment(slot: Slot, signedQuantity: int, kind: MovementType, asOf: Date)
      returns (r: Result<seq<Allocation>, InventoryError>, ghost signed: int)
      requires repo.Valid()
      modifies repo
      ensures repo.Valid()
      ensures signed == if (kind.Damage? || kind.Expiry?) && 0 < signedQuantity then -signedQuantity else signedQuantity
      ensures r.Ok? <==> (kind.Adjustment? || kind.Reconciliation? || kind.Damage? || kind.Expiry?)
                         && (0 < signed || (signed < 0 && -signed <= UsableIn(old(repo.View()), slot, asOf)))
      ensures r.Ok? && 0 < signed ==> repo.View() == ApplyPost(old(repo.View()), slot, None, kind, signed)
      ensures r.Ok? && signed < 0 ==>
                && IssueOk(old(repo.View()), slot, -signed, asOf, r.value)
                && repo.View() == ApplyIssue(old(repo.View()), slot, kind, r.value)
                && MovesOut(old(repo.ledger), repo.ledger, slot.warehouse, kind)
      ensures r.Err? ==> repo.View() == old(repo.View())
    {
      signed := signedQuantity;
      if !IsAdjustmentType(kind) {
        return Err(UnsupportedType), signed;
      }
      var quantity := if (kind.Damage? || kind.Expiry?) && 0 < signedQuantity then -signedQuantity else signedQuantity;
      signed := quantity;
      r := Adjust(slot, quantity, kind, asOf);
    }

    /** Hold available stock; succeeds exactly when it covers the request. */
    method Reserve(slot: Slot, baseQuantity: int, asOf: Date) returns (r: Result<seq<Allocation>, InventoryError>)
      requires repo.Valid()
      modifies repo
      ensures repo.Valid()
      ensures r.Ok? <==> 0 < baseQuantity <= UsableIn(old(repo.View()), slot, asOf)
      ensures r.Ok? <==> 0 < baseQuantity <= SellableIn(old(repo.View()), slot, asOf)
      ensures r.Ok? ==>
                && IssueOk(old(repo.View()), slot, baseQuantity, asOf, r.value) && AllFresh(r.value, asOf)
                && repo.View() == ApplyReserve(old(repo.View()), slot, r.value)
      ensures r.Err? ==> repo.View() == old(repo.View())
    {
      if baseQuantity <= 0 {
        return Err(QuantityNotPositive);
      }
      SellableInIs(repo.View(), slot, asOf);
      r := ChoosePlan(slot, baseQuantity, asOf);
      if r.Ok? {
        IssueIsFresh(repo.View(), slot, baseQuantity, asOf, r.value);
        HoldRows(slot, r.value, baseQuantity, asOf);
      }
    }

    /** Add each allocation to its row's reservation. */
    method HoldRows(slot: Slot, plan: seq<Allocation>, ghost q: int, ghost asOf: Date)
      requires repo.Valid() && IssueOk(repo.View(), slot, q, asOf, plan)
      modifies repo
      ensures repo.Valid() && repo.View() == ApplyReserve(old(repo.View()), slot, plan)
    {
      ghost var s := repo.View();
      PlanNeedsShelf(s, slot, q, asOf, plan);
      IssueNothing(s, slot, RetailSale);
      assert plan[..0] == [];
      for k := 0 to |plan|
        invariant repo.View() == ApplyReserve(s, slot, plan[..k])
      {
        ReserveSnoc(s, slot, plan, k);
        var ok := repo.AdjustReserved(slot, plan[k].batch, plan[k].quantity);
      }
      assert plan[..|plan|] == plan;
      ReserveKeeps(s, slot, q, asOf, plan);
    }

    /** Release part of the pooled reservation of a product, earliest expiry first;
        it runs out exactly when more is released than the pool holds. */
    method ReleaseReservation(slot: Slot, baseQuantity: int)
      returns (r: Result<(), InventoryError>, ghost plan: seq<Allocation>)
      requires repo.Valid()
      modifies repo`shelves
      ensures r.Ok? <==> 0 < baseQuantity <= HeldIn(old(repo.View()), slot)
      ensures r.Ok? ==>
                && repo.Valid()
                && ReleaseOk(old(repo.View()), slot, baseQuantity, plan)
                && repo.View() == ApplyRelease(old(repo.View()), slot, plan)
    {
      plan := [];
      if baseQuantity <= 0 {
        return Err(QuantityNotPositive), [];
      }
      var reserved := repo.ReservedBalances(slot);
      var sorted := SortByExpiry(reserved);
      ghost var s := repo.View();
      ReservedWalk(s, slot, reserved, baseQuantity);
      var remaining;
      remaining, plan := ReleaseRows(slot, sorted, baseQuantity);
      if 0 < remaining {
        return Err(OverRelease), plan;
      }
      ReleaseKeeps(s, slot, baseQuantity, plan);
      r := Ok(());
    }

    /** The release loop over the sorted rows; what is left over is returned. */
    method ReleaseRows(slot: Slot, sorted: seq<BatchAvailability>, q: int)
      returns (remaining: int, ghost plan: seq<Allocation>)
      requires 0 < q
      requires forall i :: 0 <= i < |sorted| ==> sorted[i].batch in ShelfAt(repo.shelves, slot)
      modifies repo`shelves
      ensures plan == Walk(sorted, q) && remaining == q - Quantity(plan)
      ensures repo.View() == if plan == [] then old(repo.View()) else ApplyRelease(old(repo.View()), slot, plan)
    {
      hide ApplyRelease, ShelfAt, Walk, Quantity;
      ghost var s := repo.View();
      remaining, plan := q, [];
      NothingTaken(sorted, q);
      var i := 0;
      while i < |sorted| && 0 < remaining
        invariant 0 <= i <= |sorted|
        invariant plan + Walk(sorted[i..], remaining) == Walk(sorted, q)
        invariant remaining == q - Quantity(plan)
        invariant repo.View() == if plan == [] then s else ApplyRelease(s, slot, plan)
      {
        var take := Min(sorted[i].available, remaining);
        ghost var a := Allocation(sorted[i].batch, take);
        WalkStep(sorted, i, remaining, plan, q);
        ReleaseSnoc(s, slot, plan, a);
        var ok := repo.AdjustReserved(slot, sorted[i].batch, -take);
        plan := plan + [a];
        remaining := remaining - take;
        i := i + 1;
      }
      WalkEnds(sorted[i..], remaining);
      assert plan + [] == plan;
    }

    /** A paired OUT and IN of one batch between two warehouses. */
    method Transfer(fromWarehouse: Id, toWarehouse: Id, product: Id, baseQuantity: int, b: BatchRef)
      returns (r: Result<(), InventoryError>)
      requires repo.Valid()
      modifies repo
      ensures repo.Valid()
      ensures var source, target := Slot(fromWarehouse, product), Slot(toWarehouse, product);
              && (r.Ok? <==> 0 < baseQuantity <= OnHandAt(ShelfAt(old(repo.shelves), source), b))
              && (r.Ok? ==> && repo.View() == ApplyTransfer(old(repo.View()), source, target, b, baseQuantity)
                            && repo.ledger == old(repo.ledger) + [Movement(source, b, TransferOut, -baseQuantity)]
                                              + [Movement(target, b, TransferIn, baseQuantity)])
      ensures r.Err? ==> repo.View() == old(repo.View())
    {
      var out := PostMovement(Slot(fromWarehouse, product), TransferOut, baseQuantity, b, None);
      if out.Err? {
        return Err(out.error);
      }
      assert NonNegative(ShelfAt(repo.shelves, Slot(toWarehouse, product)));
      var into := PostMovement(Slot(toWarehouse, product), TransferIn, baseQuantity, b, None);
      r := Ok(());
    }
  }

  lemma {:induction false} NothingTaken(rows: seq<BatchAvailability>, q: int)
    ensures [] + Walk(rows[0..], q) == Walk(rows, q) && Quantity([]) == 0
  {
    assert rows[0..] == rows;
  }

  /** One turn of the release loop. */
  lemma {:induction false} WalkStep(rows: seq<BatchAvailability>, i: nat, remaining: int, plan: seq<Allocation>, q: int)
    requires i < |rows| && 0 < remaining && plan + Walk(rows[i..], remaining) == Walk(rows, q)
    ensures var take := Min(rows[i].available, remaining);
            var more := plan + [Allocation(rows[i].batch, take)];
            more + Walk(rows[i + 1..], remaining - take) == Walk(rows, q) && Quantity(more) == Quantity(plan) + take
  {
    var a := Allocation(rows[i].batch, Min(rows[i].available, remaining));
    assert rows[i..][1..] == rows[i + 1..];
    assert (plan + [a])[..|plan|] == plan;
  }

  lemma {:induction false} WalkEnds(rows: seq<BatchAvailability>, remaining: int)
    requires rows == [] || remaining <= 0
    ensures Walk(rows, remaining) == []
  {
  }

  lemma {:induction false} UsableSum(rows: seq<BatchAvailability>, i: nat, asOf: Date)
    requires i < |rows|
    ensures SumAvailable(Usable(rows[..i + 1], asOf))
         == SumAvailable(Usable(rows[..i], asOf)) + if IsUsable(rows[i], asOf) then rows[i].available else 0
  {
    assert rows[..i + 1][..i] == rows[..i];
    var u := Usable(rows[..i], asOf);
    assert (u + [rows[i]])[..|u|] == u && u + [] == u;
  }

  /** What walking the reserved rows releases. */
  lemma {:induction false} ReservedWalk(s: StockState, slot: Slot, rows: seq<BatchAvailability>, q: int)
    requires 0 < q && Lists(rows, HeldCaps(ShelfAt(s.shelves, slot)))
    ensures var sorted := SortByExpiry(rows);
            && (forall i :: 0 <= i < |sorted| ==> sorted[i].batch in ShelfAt(s.shelves, slot))
            && (Quantity(Walk(sorted, q)) == q <==> q <= HeldIn(s, slot))
            && Quantity(Walk(sorted, q)) <= q
            && (q <= HeldIn(s, slot) ==> Walk(sorted, q) != [] && ReleaseOk(s, slot, q, Walk(sorted, q)))
  {
    var caps := HeldCaps(ShelfAt(s.shelves, slot));
    var sorted := SortByExpiry(rows);
    SortLists(rows, caps);
    SortSorts(rows);
    ListTotal(sorted, caps);
    WalkQuantity(sorted, q);
    if q <= HeldIn(s, slot) {
      WalkIsEarliestFirst(sorted, caps, q);
    }
  }

  function ApplyTransfer(s: StockState, source: Slot, target: Slot, b: BatchRef, q: int): StockState {
    ApplyPost(ApplyPost(s, source, b, TransferOut, -q), target, b, TransferIn, q)
  }

  lemma {:induction false} PlanNeedsShelf(s: StockState, slot: Slot, q: int, asOf: Date, plan: seq<Allocation>)
    requires IssueOk(s, slot, q, asOf, plan)
    ensures slot in s.shelves
  {
    assert plan != [];
    assert plan[0].batch in ShelfAt(s.shelves, slot);
  }

  lemma {:induction false} ReserveSnoc(s: StockState, slot: Slot, plan: seq<Allocation>, k: nat)
    requires k < |plan| && plan[k].batch in ShelfAt(s.shelves, slot)
    ensures var t := ApplyReserve(s, slot, plan[..k]);
            var shelf := ShelfAt(t.shelves, slot);
            && plan[k].batch in shelf
            && ApplyReserve(s, slot, plan[..k + 1])
               == StockState(t.shelves[slot := shelf[plan[k].batch :=
                     Balance(shelf[plan[k].batch].onHand, shelf[plan[k].batch].reserved + plan[k].quantity)]], s.ledger)
  {
    var shelf := ShelfAt(s.shelves, slot);
    ReservedSnoc(shelf, plan[..k], plan[k]);
    assert plan[..k + 1] == plan[..k] + [plan[k]];
    var next := Reserved(shelf, plan[..k + 1]);
    assert s.shelves[slot := Reserved(shelf, plan[..k])][slot := next] == s.shelves[slot := next];
  }

  lemma {:induction false} ReleaseSnoc(s: StockState, slot: Slot, plan: seq<Allocation>, a: Allocation)
    requires a.batch in ShelfAt(s.shelves, slot)
    ensures var t := if plan == [] then s else ApplyRelease(s, slot, plan);
            var shelf := ShelfAt(t.shelves, slot);
            && a.batch in shelf
            && ApplyRelease(s, slot, plan + [a])
               == StockState(t.shelves[slot := shelf[a.batch :=
                     Balance(shelf[a.batch].onHand, shelf[a.batch].reserved + -a.quantity)]], s.ledger)
  {
    var shelf := ShelfAt(s.shelves, slot);
    ReleasedSnoc(shelf, plan, a);
    IssuedNothing(shelf);
    var next := Released(shelf, plan + [a]);
    assert s.shelves[slot := Released(shelf, plan)][slot := next] == s.shelves[slot := next];
  }
}
