/** The stock tables as values, and what each stock operation does to them
    (backend/app/modules/inventory/models.py, service.py). A shelf is the set of
    balance rows of one (warehouse, product); a plan says which batches an
    operation chose, so the arrival order of rows stays open. */
module Stock {
  import opened Prelude
  import opened MapSum
  import opened Fefo

  type Id = nat

  datatype Slot = Slot(warehouse: Id, product: Id)

  datatype Balance = Balance(onHand: int, reserved: int)

  function Available(bal: Balance): int { bal.onHand - bal.reserved }

  type Shelf = map<BatchRef, Balance>

  datatype MovementType =
    | Opening | PurchaseReceipt | RetailSale | WholesaleSale | SalesReturn | PurchaseReturn
    | TransferOut | TransferIn | Damage | Expiry | Adjustment | RepairConsumption | RepairReturn
    | Reconciliation

  function MovementDirection(t: MovementType): int {
    match t
    case Opening | PurchaseReceipt | SalesReturn | TransferIn | RepairReturn => 1
    case RetailSale | WholesaleSale | PurchaseReturn | TransferOut | Damage | Expiry | RepairConsumption => -1
    case Adjustment | Reconciliation => 0
  }

  /** The sign a ledger row of each type carries. */
  predicate SignOk(t: MovementType, quantity: int) {
    match t
    case Opening | PurchaseReceipt | SalesReturn | TransferIn | RepairReturn => 0 < quantity
    case RetailSale | WholesaleSale | PurchaseReturn | TransferOut | Damage | Expiry | RepairConsumption => quantity < 0
    case Adjustment | Reconciliation => quantity != 0
  }

  /** A ledger row; the quantity is signed. */
  datatype Movement = Movement(slot: Slot, batch: BatchRef, kind: MovementType, quantity: int)

  datatype StockState = StockState(shelves: map<Slot, Shelf>, ledger: seq<Movement>)

  function ShelfAt(shelves: map<Slot, Shelf>, slot: Slot): Shelf {
    if slot in shelves then shelves[slot] else map[]
  }

  /** A missing row counts as zero. */
  function OnHandAt(shelf: Shelf, b: BatchRef): int {
    if b in shelf then shelf[b].onHand else 0
  }

  function ReservedAt(shelf: Shelf, b: BatchRef): int {
    if b in shelf then shelf[b].reserved else 0
  }

  // --- Quantities per batch, and their totals -------------------------------------

  function AvailableCaps(shelf: Shelf): (m: map<BatchRef, int>)
    ensures m.Keys == shelf.Keys
  {
    map b | b in shelf :: Max(0, Available(shelf[b]))
  }

  function HeldCaps(shelf: Shelf): (m: map<BatchRef, int>)
    ensures m.Keys == shelf.Keys
  {
    map b | b in shelf :: shelf[b].reserved
  }

  function OnHandCaps(shelf: Shelf): (m: map<BatchRef, int>)
    ensures m.Keys == shelf.Keys
  {
    map b | b in shelf :: shelf[b].onHand
  }

  /** Sellable now: positive on-hand minus reserved of unexpired batches. */
  function UsableAt(shelf: Shelf, asOf: Date): (m: map<BatchRef, int>)
    ensures m.Keys == shelf.Keys
  {
    UsableCaps(AvailableCaps(shelf), asOf)
  }

  /** The same in each batch's own date: nothing from its expiry on, otherwise what is
      not reserved. */
  ghost function Sellable(shelf: Shelf, asOf: Date): (m: map<BatchRef, int>)
    ensures m.Keys == shelf.Keys
  {
    map b | b in shelf :: if Fresh(b, asOf) && shelf[b].reserved < shelf[b].onHand
                          then shelf[b].onHand - shelf[b].reserved else 0
  }

  lemma {:induction false} SellableIsUsable(shelf: Shelf, asOf: Date)
    ensures UsableAt(shelf, asOf) == Sellable(shelf, asOf) && UsableTotal(shelf, asOf) == Total(Sellable(shelf, asOf))
  {
  }

  ghost function UsableTotal(shelf: Shelf, asOf: Date): int { Total(UsableAt(shelf, asOf)) }

  ghost function HeldTotal(shelf: Shelf): int { Total(HeldCaps(shelf)) }

  /** Reserved quantity sitting on batches already expired. */
  ghost function HeldExpired(shelf: Shelf, asOf: Date): int { Total(ExpiringBy(HeldCaps(shelf), asOf)) }

  ghost function OnHandTotal(shelf: Shelf): int { Total(OnHandCaps(shelf)) }

  ghost predicate NonNegative(shelf: Shelf) {
    forall b :: b in shelf ==> 0 <= shelf[b].onHand && 0 <= shelf[b].reserved
  }

  /** No row promises more than it holds. */
  ghost predicate Covered(shelf: Shelf) {
    forall b :: b in shelf ==> 0 <= shelf[b].reserved <= shelf[b].onHand
  }

  // --- Shelf operations --------------------------------------------------------------

  function Issued(shelf: Shelf, plan: seq<Allocation>): (r: Shelf)
    ensures r.Keys == shelf.Keys
  {
    map b | b in shelf :: Balance(shelf[b].onHand - Taken(plan, b), shelf[b].reserved)
  }

  function Reserved(shelf: Shelf, plan: seq<Allocation>): (r: Shelf)
    ensures r.Keys == shelf.Keys
  {
    map b | b in shelf :: Balance(shelf[b].onHand, shelf[b].reserved + Taken(plan, b))
  }

  function Released(shelf: Shelf, plan: seq<Allocation>): (r: Shelf)
    ensures r.Keys == shelf.Keys
  {
    map b | b in shelf :: Balance(shelf[b].onHand, shelf[b].reserved - Taken(plan, b))
  }

  function Posted(shelf: Shelf, b: BatchRef, delta: int): Shelf {
    shelf[b := Balance(OnHandAt(shelf, b) + delta, ReservedAt(shelf, b))]
  }

  lemma {:induction false} UsableNonNegative(shelf: Shelf, asOf: Date)
    ensures forall b :: b in shelf ==> 0 <= UsableAt(shelf, asOf)[b]
    ensures 0 <= UsableTotal(shelf, asOf)
  {
    var zeros := map b | b in shelf :: 0;
    TotalZero(zeros);
    TotalAtMost(zeros, UsableAt(shelf, asOf));
  }

  lemma {:induction false} HeldNonNegative(shelf: Shelf, asOf: Date)
    requires NonNegative(shelf)
    ensures 0 <= HeldExpired(shelf, asOf) <= HeldTotal(shelf)
  {
    var zeros := map b | b in shelf :: 0;
    TotalZero(zeros);
    TotalAtMost(zeros, ExpiringBy(HeldCaps(shelf), asOf));
    TotalAtMost(ExpiringBy(HeldCaps(shelf), asOf), HeldCaps(shelf));
  }

  /** What a plan over usable stock takes from each batch, and from no other. */
  lemma {:induction false} UsablePlan(shelf: Shelf, asOf: Date, q: int, plan: seq<Allocation>)
    requires IsEarliestFirst(UsableAt(shelf, asOf), q, plan)
    ensures forall b :: b in shelf ==> 0 <= Taken(plan, b) <= UsableAt(shelf, asOf)[b]
    ensures Total(TakenMap(plan, shelf.Keys)) == q
  {
    UsableNonNegative(shelf, asOf);
    forall b | b in shelf ensures 0 <= Taken(plan, b) <= UsableAt(shelf, asOf)[b] {
      TakenBounds(UsableAt(shelf, asOf), plan, b);
    }
    TotalTaken(plan, shelf.Keys);
  }

  /** Issuing unreserved stock leaves every reservation covered. */
  lemma {:induction false} IssueEffect(shelf: Shelf, asOf: Date, q: int, plan: seq<Allocation>)
    requires IsEarliestFirst(UsableAt(shelf, asOf), q, plan) && NonNegative(shelf)
    ensures NonNegative(Issued(shelf, plan))
    ensures Covered(shelf) ==> Covered(Issued(shelf, plan))
    ensures HeldCaps(Issued(shelf, plan)) == HeldCaps(shelf)
    ensures UsableTotal(Issued(shelf, plan), asOf) == UsableTotal(shelf, asOf) - q
    ensures OnHandTotal(Issued(shelf, plan)) == OnHandTotal(shelf) - q
  {
    UsablePlan(shelf, asOf, q, plan);
    var after := Issued(shelf, plan);
    var taken := TakenMap(plan, shelf.Keys);
    TotalAdd(UsableAt(after, asOf), taken, UsableAt(shelf, asOf));
    TotalAdd(OnHandCaps(after), taken, OnHandCaps(shelf));
  }

  lemma {:induction false} ReserveEffect(shelf: Shelf, asOf: Date, q: int, plan: seq<Allocation>)
    requires IsEarliestFirst(UsableAt(shelf, asOf), q, plan) && NonNegative(shelf)
    ensures NonNegative(Reserved(shelf, plan))
    ensures Covered(shelf) ==> Covered(Reserved(shelf, plan))
    ensures HeldTotal(Reserved(shelf, plan)) == HeldTotal(shelf) + q
    ensures UsableTotal(Reserved(shelf, plan), asOf) == UsableTotal(shelf, asOf) - q
    ensures OnHandCaps(Reserved(shelf, plan)) == OnHandCaps(shelf)
  {
    UsablePlan(shelf, asOf, q, plan);
    var after := Reserved(shelf, plan);
    var taken := TakenMap(plan, shelf.Keys);
    TotalAdd(UsableAt(after, asOf), taken, UsableAt(shelf, asOf));
    TotalAdd(HeldCaps(shelf), taken, HeldCaps(after));
  }

  /** A release takes the expired part of the pool first. */
  lemma {:induction false} ReleaseEffect(shelf: Shelf, asOf: Date, q: int, plan: seq<Allocation>)
    requires IsEarliestFirst(HeldCaps(shelf), q, plan) && NonNegative(shelf)
    ensures NonNegative(Released(shelf, plan))
    ensures HeldTotal(Released(shelf, plan)) == HeldTotal(shelf) - q
    ensures OnHandCaps(Released(shelf, plan)) == OnHandCaps(shelf)
    ensures HeldExpired(Released(shelf, plan), asOf)
         == HeldExpired(shelf, asOf) - Min(q, HeldExpired(shelf, asOf))
  {
    HeldPlan(shelf, q, plan);
    var after := Released(shelf, plan);
    var taken := TakenMap(plan, shelf.Keys);
    TotalAdd(HeldCaps(after), taken, HeldCaps(shelf));
    Dominance(HeldCaps(shelf), q, plan, asOf);
    TotalAdd(ExpiringBy(HeldCaps(after), asOf), ExpiringBy(taken, asOf), ExpiringBy(HeldCaps(shelf), asOf));
  }

  lemma {:induction false} HeldPlan(shelf: Shelf, q: int, plan: seq<Allocation>)
    requires IsEarliestFirst(HeldCaps(shelf), q, plan) && NonNegative(shelf)
    ensures forall b :: b in shelf ==> 0 <= Taken(plan, b) <= shelf[b].reserved
    ensures Total(TakenMap(plan, shelf.Keys)) == q
  {
    forall b | b in shelf ensures 0 <= Taken(plan, b) <= shelf[b].reserved {
      TakenBounds(HeldCaps(shelf), plan, b);
    }
    TotalTaken(plan, shelf.Keys);
  }

  /** Only what a release frees on unexpired batches becomes sellable. */
  lemma {:induction false} ReleaseFrees(shelf: Shelf, asOf: Date, q: int, plan: seq<Allocation>)
    requires IsEarliestFirst(HeldCaps(shelf), q, plan) && Covered(shelf)
    ensures Covered(Released(shelf, plan))
    ensures UsableTotal(Released(shelf, plan), asOf)
         == UsableTotal(shelf, asOf) + q - Min(q, HeldExpired(shelf, asOf))
  {
    HeldPlan(shelf, q, plan);
    var taken := TakenMap(plan, shelf.Keys);
    Dominance(HeldCaps(shelf), q, plan, asOf);
    var freed := map b | b in shelf :: if ExpiredBy(b, asOf) then 0 else taken[b];
    TotalAdd(freed, ExpiringBy(taken, asOf), taken);
    TotalAdd(UsableAt(shelf, asOf), freed, UsableAt(Released(shelf, plan), asOf));
  }

  /** Covered or not, a release never makes less sellable. */
  lemma {:induction false} ReleaseNeverLowers(shelf: Shelf, asOf: Date, q: int, plan: seq<Allocation>)
    requires IsEarliestFirst(HeldCaps(shelf), q, plan) && NonNegative(shelf)
    ensures UsableTotal(shelf, asOf) <= UsableTotal(Released(shelf, plan), asOf)
  {
    HeldPlan(shelf, q, plan);
    TotalAtMost(UsableAt(shelf, asOf), UsableAt(Released(shelf, plan), asOf));
  }

  lemma {:induction false} PostEffect(shelf: Shelf, b: BatchRef, delta: int)
    ensures OnHandTotal(Posted(shelf, b, delta)) == OnHandTotal(shelf) + delta
    ensures HeldTotal(Posted(shelf, b, delta)) == HeldTotal(shelf)
  {
    var after := Posted(shelf, b, delta);
    TotalUpdate(OnHandCaps(shelf), b, OnHandAt(shelf, b) + delta);
    assert OnHandCaps(after) == OnHandCaps(shelf)[b := OnHandAt(shelf, b) + delta];
    TotalUpdate(HeldCaps(shelf), b, ReservedAt(shelf, b));
    assert HeldCaps(after) == HeldCaps(shelf)[b := ReservedAt(shelf, b)];
  }
}
