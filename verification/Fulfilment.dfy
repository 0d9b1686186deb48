/** When a document's lines go through: exactly which stock lets every line of a
    sale, an order or a dispatch succeed, one line after another. */
module Fulfilment {
  import opened Prelude
  import Fefo
  import opened Stock
  import opened StockLines

  /** Every product's summed quantity is sellable now. */
  ghost predicate Enough(s: StockState, w: Id, lines: seq<Line>, asOf: Fefo.Date) {
    forall p :: Demand(lines, p) <= UsableIn(s, Slot(w, p), asOf)
  }

  /** The pool holds every product's summed quantity, and unreserved stock can
      stand in for whatever part of it has expired. */
  ghost predicate Shippable(s: StockState, w: Id, lines: seq<Line>, asOf: Fefo.Date) {
    forall p ::
      && Demand(lines, p) <= HeldIn(s, Slot(w, p))
      && Min(Demand(lines, p), HeldExpiredIn(s, Slot(w, p), asOf)) <= UsableIn(s, Slot(w, p), asOf)
  }

  lemma {:induction false} UsableSane(s: StockState, slot: Slot, asOf: Fefo.Date)
    ensures 0 <= UsableIn(s, slot, asOf)
  {
    UsableNonNegative(ShelfAt(s.shelves, slot), asOf);
  }

  lemma {:induction false} DemandSnoc(lines: seq<Line>, i: nat, p: Id)
    requires i < |lines|
    ensures Demand(lines[..i + 1], p) == Demand(lines[..i], p) + if lines[i].product == p then lines[i].quantity else 0
  {
    assert lines[..i + 1][..i] == lines[..i];
  }

  lemma {:induction false} NoDemand(lines: seq<Line>, p: Id)
    requires forall i :: 0 <= i < |lines| ==> lines[i].product != p
    ensures Demand(lines, p) == 0
  {
    if lines != [] {
      NoDemand(lines[..|lines| - 1], p);
    }
  }

  // --- Issuing --------------------------------------------------------------------------

  /** The first `i` lines took `s` to `t`. */
  ghost predicate Issuing(s: StockState, t: StockState, w: Id, lines: seq<Line>, i: nat, asOf: Fefo.Date,
                          kind: MovementType, plans: seq<seq<Fefo.Allocation>>)
    requires i <= |lines|
  {
    && |plans| == i
    && IssueLinesOk(s, w, lines[..i], asOf, kind, plans)
    && t == IssueLines(s, w, lines[..i], kind, plans)
  }

  lemma {:induction false} IssuingNone(s: StockState, w: Id, lines: seq<Line>, asOf: Fefo.Date, kind: MovementType)
    ensures Issuing(s, s, w, lines, 0, asOf, kind, [])
  {
    assert lines[..0] == [];
  }

  lemma {:induction false} IssuingNext(s: StockState, t: StockState, w: Id, lines: seq<Line>, i: nat, asOf: Fefo.Date,
                                       kind: MovementType,
                    plans: seq<seq<Fefo.Allocation>>, plan: seq<Fefo.Allocation>)
    requires i < |lines| && Issuing(s, t, w, lines, i, asOf, kind, plans)
    requires IssueOk(t, Slot(w, lines[i].product), lines[i].quantity, asOf, plan)
    ensures Issuing(s, ApplyIssue(t, Slot(w, lines[i].product), kind, plan), w, lines, i + 1, asOf, kind,
                    plans + [plan])
  {
    hide IssueOk, ApplyIssue;
    var more, all := lines[..i + 1], plans + [plan];
    assert more[..i] == lines[..i] && all[..i] == plans && more[i] == lines[i];
  }

  /** What is left for the next line. */
  lemma {:induction false} IssueLeft(s: StockState, t: StockState, w: Id, lines: seq<Line>, i: nat, asOf: Fefo.Date,
                                     kind: MovementType,
                  plans: seq<seq<Fefo.Allocation>>, p: Id)
    requires Projected(s) && i <= |lines| && Issuing(s, t, w, lines, i, asOf, kind, plans)
    ensures UsableIn(t, Slot(w, p), asOf) == UsableIn(s, Slot(w, p), asOf) - Demand(lines[..i], p)
    ensures Demand(lines[..i], p) <= UsableIn(s, Slot(w, p), asOf)
  {
    IssueLinesEffect(s, w, lines[..i], asOf, kind, plans, Slot(w, p));
    UsableSane(t, Slot(w, p), asOf);
  }

  /** If every line went through, there was enough. */
  lemma {:induction false} IssuedMeansEnough(s: StockState, t: StockState, w: Id, lines: seq<Line>, asOf: Fefo.Date,
                                             kind: MovementType,
                          plans: seq<seq<Fefo.Allocation>>)
    requires Projected(s) && Issuing(s, t, w, lines, |lines|, asOf, kind, plans)
    ensures Enough(s, w, lines, asOf)
    ensures IssueLinesOk(s, w, lines, asOf, kind, plans) && t == IssueLines(s, w, lines, kind, plans)
  {
    assert lines[..|lines|] == lines;
    forall p ensures Demand(lines, p) <= UsableIn(s, Slot(w, p), asOf) {
      IssueLeft(s, t, w, lines, |lines|, asOf, kind, plans, p);
    }
  }

  /** If a line is refused, there was not. */
  lemma {:induction false} RefusedMeansShort(s: StockState, t: StockState, w: Id, lines: seq<Line>, i: nat,
                                             asOf: Fefo.Date, kind: MovementType,
                          plans: seq<seq<Fefo.Allocation>>)
    requires Projected(s) && i < |lines| && Issuing(s, t, w, lines, i, asOf, kind, plans)
    requires AllPositive(lines)
    requires !(0 < lines[i].quantity <= UsableIn(t, Slot(w, lines[i].product), asOf))
    ensures !Enough(s, w, lines, asOf)
  {
    var p := lines[i].product;
    IssueLeft(s, t, w, lines, i, asOf, kind, plans, p);
    DemandSnoc(lines, i, p);
    DemandMonotone(lines, i + 1, p);
    assert UsableIn(s, Slot(w, p), asOf) < Demand(lines, p);
  }

  // --- Reserving ------------------------------------------------------------------------

  ghost predicate Reserving(s: StockState, t: StockState, w: Id, lines: seq<Line>, i: nat, asOf: Fefo.Date,
                            plans: seq<seq<Fefo.Allocation>>)
    requires i <= |lines|
  {
    && |plans| == i
    && ReserveLinesOk(s, w, lines[..i], asOf, plans)
    && t == ReserveLines(s, w, lines[..i], plans)
  }

  lemma {:induction false} ReservingNone(s: StockState, w: Id, lines: seq<Line>, asOf: Fefo.Date)
    ensures Reserving(s, s, w, lines, 0, asOf, [])
  {
    assert lines[..0] == [];
  }

  lemma {:induction false} ReservingNext(s: StockState, t: StockState, w: Id, lines: seq<Line>, i: nat, asOf: Fefo.Date,
                      plans: seq<seq<Fefo.Allocation>>, plan: seq<Fefo.Allocation>)
    requires i < |lines| && Reserving(s, t, w, lines, i, asOf, plans)
    requires IssueOk(t, Slot(w, lines[i].product), lines[i].quantity, asOf, plan)
    ensures Reserving(s, ApplyReserve(t, Slot(w, lines[i].product), plan), w, lines, i + 1, asOf, plans + [plan])
  {
    hide IssueOk, ApplyReserve;
    var more, all := lines[..i + 1], plans + [plan];
    assert more[..i] == lines[..i] && all[..i] == plans && more[i] == lines[i];
  }

  lemma {:induction false} ReserveLeft(s: StockState, t: StockState, w: Id, lines: seq<Line>, i: nat, asOf: Fefo.Date,
                    plans: seq<seq<Fefo.Allocation>>, p: Id)
    requires Projected(s) && i <= |lines| && Reserving(s, t, w, lines, i, asOf, plans)
    ensures UsableIn(t, Slot(w, p), asOf) == UsableIn(s, Slot(w, p), asOf) - Demand(lines[..i], p)
    ensures Demand(lines[..i], p) <= UsableIn(s, Slot(w, p), asOf)
  {
    ReserveLinesEffect(s, w, lines[..i], asOf, plans, Slot(w, p));
    UsableSane(t, Slot(w, p), asOf);
  }

  lemma {:induction false} ReservedMeansEnough(s: StockState, t: StockState, w: Id, lines: seq<Line>, asOf: Fefo.Date,
                            plans: seq<seq<Fefo.Allocation>>)
    requires Projected(s) && Reserving(s, t, w, lines, |lines|, asOf, plans)
    ensures Enough(s, w, lines, asOf)
    ensures ReserveLinesOk(s, w, lines, asOf, plans) && t == ReserveLines(s, w, lines, plans)
  {
    assert lines[..|lines|] == lines;
    forall p ensures Demand(lines, p) <= UsableIn(s, Slot(w, p), asOf) {
      ReserveLeft(s, t, w, lines, |lines|, asOf, plans, p);
    }
  }

  lemma {:induction false} UnreservedMeansShort(s: StockState, t: StockState, w: Id, lines: seq<Line>, i: nat,
                                                asOf: Fefo.Date,
                             plans: seq<seq<Fefo.Allocation>>)
    requires Projected(s) && i < |lines| && Reserving(s, t, w, lines, i, asOf, plans)
    requires AllPositive(lines)
    requires !(0 < lines[i].quantity <= UsableIn(t, Slot(w, lines[i].product), asOf))
    ensures !Enough(s, w, lines, asOf)
  {
    var p := lines[i].product;
    ReserveLeft(s, t, w, lines, i, asOf, plans, p);
    DemandSnoc(lines, i, p);
    DemandMonotone(lines, i + 1, p);
    assert UsableIn(s, Slot(w, p), asOf) < Demand(lines, p);
  }

  // --- Dispatching ----------------------------------------------------------------------

  ghost predicate Dispatching(s: StockState, t: StockState, w: Id, lines: seq<Line>, i: nat, asOf: Fefo.Date,
                              plans: seq<DispatchPlan>)
    requires i <= |lines|
  {
    && |plans| == i
    && DispatchLinesOk(s, w, lines[..i], asOf, plans)
    && t == DispatchLines(s, w, lines[..i], plans)
  }

  lemma {:induction false} DispatchingNone(s: StockState, w: Id, lines: seq<Line>, asOf: Fefo.Date)
    ensures Dispatching(s, s, w, lines, 0, asOf, [])
  {
    assert lines[..0] == [];
  }

  lemma {:induction false} DispatchingNext(s: StockState, t: StockState, w: Id, lines: seq<Line>, i: nat,
                                           asOf: Fefo.Date,
                        plans: seq<DispatchPlan>, plan: DispatchPlan)
    requires i < |lines| && Dispatching(s, t, w, lines, i, asOf, plans)
    requires var slot := Slot(w, lines[i].product);
             && ReleaseOk(t, slot, lines[i].quantity, plan.release)
             && IssueOk(ApplyRelease(t, slot, plan.release), slot, lines[i].quantity, asOf, plan.issue)
    ensures Dispatching(s, DispatchOne(t, Slot(w, lines[i].product), plan), w, lines, i + 1, asOf, plans + [plan])
  {
    hide IssueOk, ReleaseOk, DispatchOne, ApplyRelease;
    var more, all := lines[..i + 1], plans + [plan];
    assert more[..i] == lines[..i] && all[..i] == plans && more[i] == lines[i];
  }

  /** The totals the next line of a dispatch meets. */
  lemma {:induction false} DispatchLeft(s: StockState, t: StockState, w: Id, lines: seq<Line>, i: nat, asOf: Fefo.Date,
                     plans: seq<DispatchPlan>, p: Id)
    requires Projected(s) && AllCovered(s) && AllPositive(lines)
    requires i <= |lines| && Dispatching(s, t, w, lines, i, asOf, plans)
    ensures Projected(t) && AllCovered(t)
    ensures Shipped(s, t, Slot(w, p), Demand(lines[..i], p), asOf)
    ensures 0 <= Demand(lines[..i], p)
  {
    DispatchLinesKeeps(s, w, lines[..i], asOf, plans);
    DispatchLinesEffect(s, w, lines[..i], asOf, plans, Slot(w, p));
  }

  /** One line can be released and then issued. */
  ghost predicate Ships(s: StockState, slot: Slot, q: int, asOf: Fefo.Date) {
    q <= HeldIn(s, slot) && Min(q, HeldExpiredIn(s, slot, asOf)) <= UsableIn(s, slot, asOf)
  }

  /** After the release, the issue finds enough exactly when unreserved stock can
      stand in for the expired part of what was released. */
  lemma {:induction false} ReleasedEnough(s: StockState, slot: Slot, q: int, asOf: Fefo.Date,
                                          plan: seq<Fefo.Allocation>)
    requires Projected(s) && AllCovered(s) && ReleaseOk(s, slot, q, plan)
    ensures q <= UsableIn(ApplyRelease(s, slot, plan), slot, asOf)
            <==> Min(q, HeldExpiredIn(s, slot, asOf)) <= UsableIn(s, slot, asOf)
  {
    var shelf := ShelfAt(s.shelves, slot);
    assert Covered(shelf);
    ReleaseFrees(shelf, asOf, q, plan);
    ShelfSet(s.shelves, slot, Released(shelf, plan), slot);
  }

  /** Whether line `i` goes through is a question about the prefix ending with it. */
  ghost predicate PrefixShips(s: StockState, w: Id, lines: seq<Line>, i: nat, p: Id, asOf: Fefo.Date)
    requires i <= |lines|
  {
    && Demand(lines[..i], p) <= HeldIn(s, Slot(w, p))
    && Min(Demand(lines[..i], p), HeldExpiredIn(s, Slot(w, p), asOf)) <= UsableIn(s, Slot(w, p), asOf)
  }

  lemma {:induction false} NextShips(s: StockState, t: StockState, w: Id, lines: seq<Line>, i: nat, asOf: Fefo.Date)
    requires i < |lines| && 0 < lines[i].quantity
    requires var p := lines[i].product;
             && Shipped(s, t, Slot(w, p), Demand(lines[..i], p), asOf)
             && 0 <= Demand(lines[..i], p) && 0 <= HeldExpiredIn(s, Slot(w, p), asOf)
    ensures var p := lines[i].product;
            PrefixShips(s, w, lines, i + 1, p, asOf) <==> Ships(t, Slot(w, p), lines[i].quantity, asOf)
  {
    hide HeldIn, HeldExpiredIn, UsableIn, Demand;
    DemandSnoc(lines, i, lines[i].product);
  }

  lemma {:induction false} ShippableShipsPrefix(s: StockState, w: Id, lines: seq<Line>, i: nat, p: Id, asOf: Fefo.Date)
    requires AllPositive(lines) && i <= |lines| && Shippable(s, w, lines, asOf)
    ensures PrefixShips(s, w, lines, i, p, asOf)
  {
    DemandMonotone(lines, i, p);
  }

  /** A line that fails to release or to issue was not shippable. */
  lemma {:induction false} StuckMeansUnshippable(s: StockState, t: StockState, w: Id, lines: seq<Line>, i: nat,
                                                 asOf: Fefo.Date,
                              plans: seq<DispatchPlan>)
    requires Projected(s) && AllCovered(s) && AllPositive(lines)
    requires i < |lines| && Dispatching(s, t, w, lines, i, asOf, plans)
    requires var slot := Slot(w, lines[i].product);
             !Ships(t, slot, lines[i].quantity, asOf)
    ensures !Shippable(s, w, lines, asOf)
  {
    var p := lines[i].product;
    DispatchLeft(s, t, w, lines, i, asOf, plans, p);
    HeldSane(s, Slot(w, p), asOf);
    NextShips(s, t, w, lines, i, asOf);
    if Shippable(s, w, lines, asOf) {
      ShippableShipsPrefix(s, w, lines, i + 1, p, asOf);
    }
  }

  /** A dispatch that went through was shippable. */
  lemma {:induction false} ShippedMeansShippable(s: StockState, t: StockState, w: Id, lines: seq<Line>,
                                                 asOf: Fefo.Date, plans: seq<DispatchPlan>)
    requires Projected(s) && AllCovered(s) && AllPositive(lines)
    requires Dispatching(s, t, w, lines, |lines|, asOf, plans)
    ensures Shippable(s, w, lines, asOf)
    ensures DispatchLinesOk(s, w, lines, asOf, plans) && t == DispatchLines(s, w, lines, plans)
  {
    assert lines[..|lines|] == lines;
    forall p
      ensures && Demand(lines, p) <= HeldIn(s, Slot(w, p))
              && Min(Demand(lines, p), HeldExpiredIn(s, Slot(w, p), asOf)) <= UsableIn(s, Slot(w, p), asOf)
    {
      DispatchLeft(s, t, w, lines, |lines|, asOf, plans, p);
      ShippedFits(s, t, Slot(w, p), Demand(lines, p), asOf);
    }
  }

  lemma {:induction false} ShippedFits(s: StockState, t: StockState, slot: Slot, d: int, asOf: Fefo.Date)
    requires Projected(s) && Projected(t) && Shipped(s, t, slot, d, asOf)
    ensures d <= HeldIn(s, slot) && Min(d, HeldExpiredIn(s, slot, asOf)) <= UsableIn(s, slot, asOf)
  {
    UsableSane(t, slot, asOf);
    HeldSane(t, slot, asOf);
  }

  // --- Dispatching, covered or not --------------------------------------------------------

  /** The pool holds every product's summed quantity. */
  ghost predicate PoolHolds(s: StockState, w: Id, lines: seq<Line>) {
    forall p :: Demand(lines, p) <= HeldIn(s, Slot(w, p))
  }

  /** What the next line of a dispatch meets, even where a transfer has taken
      reserved stock. */
  lemma {:induction false} DispatchHeld(s: StockState, t: StockState, w: Id, lines: seq<Line>, i: nat, asOf: Fefo.Date,
                                        plans: seq<DispatchPlan>)
    requires Projected(s) && AllPositive(lines) && i < |lines| && Dispatching(s, t, w, lines, i, asOf, plans)
    ensures var p := lines[i].product;
            && Projected(t) && 0 < lines[i].quantity
            && HeldIn(s, Slot(w, p)) - Demand(lines, p) <= HeldIn(t, Slot(w, p)) - lines[i].quantity
            && UsableIn(s, Slot(w, p), asOf) - Demand(lines, p) <= UsableIn(t, Slot(w, p), asOf) - lines[i].quantity
  {
    var p := lines[i].product;
    DispatchLinesKeeps(s, w, lines[..i], asOf, plans);
    DispatchLinesHold(s, w, lines[..i], asOf, plans, Slot(w, p));
    DemandSnoc(lines, i, p);
    DemandMonotone(lines, i + 1, p);
  }

  /** While the pool holds the document, no line of it releases more than is held. */
  lemma {:induction false} NeverOverReleases(s: StockState, t: StockState, w: Id, lines: seq<Line>, i: nat,
                                             asOf: Fefo.Date, plans: seq<DispatchPlan>)
    requires Projected(s) && AllPositive(lines) && i < |lines| && Dispatching(s, t, w, lines, i, asOf, plans)
    requires PoolHolds(s, w, lines)
    ensures 0 < lines[i].quantity <= HeldIn(t, Slot(w, lines[i].product))
  {
    hide HeldIn, UsableIn, Demand, Dispatching, AllPositive, Projected;
    DispatchHeld(s, t, w, lines, i, asOf, plans);
  }

  /** And while unreserved stock covers it as well, every line ships. */
  lemma {:induction false} EnoughShips(s: StockState, t: StockState, w: Id, lines: seq<Line>, i: nat, asOf: Fefo.Date,
                                       plans: seq<DispatchPlan>)
    requires Projected(s) && AllPositive(lines) && i < |lines| && Dispatching(s, t, w, lines, i, asOf, plans)
    requires Enough(s, w, lines, asOf)
    ensures 0 < lines[i].quantity <= UsableIn(t, Slot(w, lines[i].product), asOf)
  {
    hide HeldIn, UsableIn, Demand, Dispatching, AllPositive, Projected;
    DispatchHeld(s, t, w, lines, i, asOf, plans);
  }
}
