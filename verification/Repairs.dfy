/** What repair jobs write, on values, and how the parts at jobs follow the ledger
    (service_jobs/service.py, service_jobs/models.py). */
module Repairs {
  import opened Prelude
  import opened MapSum
  import Fefo
  import opened Money
  import opened Stock
  import opened StockLines
  import opened Documents
  import opened Numbering

  /** A warranty of one serial number, both dates included. */
  datatype Warranty = Warranty(serial: Id, startDate: Date, endDate: Date)

  datatype IntakeRequest = IntakeRequest(branch: Option<Id>, warehouse: Id, serial: Option<Id>, receivedDate: Date)

  /** Value of a quantity in 1/1000 of a unit, to the paisa. */
  function LineValue(unitPrice: int, quantity: int): int {
    HalfUp(unitPrice * quantity, 1000)
  }

  /** What the job's parts not yet returned are worth. */
  function PartsValue(parts: seq<RepairPart>, job: nat): int {
    if parts == [] then 0
    else
      var p := parts[|parts| - 1];
      PartsValue(parts[..|parts| - 1], job)
      + if p.job == job && !p.returned then LineValue(p.unitPrice, p.quantity) else 0
  }

  /** Quantity of a product out at repair jobs of a warehouse. */
  function OutAtJobs(jobs: seq<RepairJob>, parts: seq<RepairPart>, slot: Slot): int {
    if parts == [] then 0
    else
      var p := parts[|parts| - 1];
      OutAtJobs(jobs, parts[..|parts| - 1], slot)
      + if p.job < |jobs| && jobs[p.job].warehouse == slot.warehouse && p.product == slot.product && !p.returned
        then p.quantity else 0
  }

  /** Sum of the repair movements in the ledger. */
  function RepairMovements(ledger: seq<Movement>, slot: Slot): int {
    if ledger == [] then 0
    else
      var m := ledger[|ledger| - 1];
      RepairMovements(ledger[..|ledger| - 1], slot)
      + if m.slot == slot && (m.kind.RepairConsumption? || m.kind.RepairReturn?) then m.quantity else 0
  }

  /** Labour is always billed; parts are waived under warranty. */
  predicate JobOk(j: RepairJob, parts: seq<RepairPart>, id: nat) {
    && j.partsTotal == PartsValue(parts, id)
    && j.customerPayable == j.labourCharges + if j.underWarranty then 0 else j.partsTotal
  }

  ghost predicate JobsOk(jobs: seq<RepairJob>, parts: seq<RepairPart>) {
    forall j :: 0 <= j < |jobs| ==> JobOk(jobs[j], parts, j)
  }

  ghost predicate PartsOk(jobs: seq<RepairJob>, parts: seq<RepairPart>) {
    forall p :: 0 <= p < |parts| ==> parts[p].job < |jobs| && 0 < parts[p].quantity
  }

  /** The repair movements of the ledger add up to minus what is out at jobs. */
  ghost predicate PartsBalance(jobs: seq<RepairJob>, parts: seq<RepairPart>, ledger: seq<Movement>) {
    forall slot :: RepairMovements(ledger, slot) == -OutAtJobs(jobs, parts, slot)
  }

  /** The jobs' bills agree with their parts, and the parts with the ledger. */
  ghost predicate WorkshopOk(b: Books, ledger: seq<Movement>) {
    JobsOk(b.jobs, b.parts) && PartsOk(b.jobs, b.parts) && PartsBalance(b.jobs, b.parts, ledger)
  }

  function Recomputed(j: RepairJob, partsTotal: int, labour: int): RepairJob {
    j.(partsTotal := partsTotal, labourCharges := labour,
       customerPayable := labour + if j.underWarranty then 0 else partsTotal)
  }

  // --- What each call writes ---------------------------------------------------------------

  predicate UnderWarranty(warranties: seq<Warranty>, serial: Option<Id>, on: Date) {
    serial.Some? && exists k :: 0 <= k < |warranties| && Covers(warranties[k], serial.value, on)
  }

  predicate Covers(w: Warranty, serial: Id, on: Date) {
    w.serial == serial && w.startDate <= on <= w.endDate
  }

  function JobScope(req: IntakeRequest): Scope { Scope(RepairDocument, req.branch) }

  function NewJob(b: Books, warranties: seq<Warranty>, req: IntakeRequest): RepairJob {
    RepairJob(req.branch, NextOf(b.numbers, b.codes, JobScope(req)), req.warehouse,
              UnderWarranty(warranties, req.serial, req.receivedDate), 0, 0, 0, false)
  }

  function ApplyIntake(b: Books, warranties: seq<Warranty>, req: IntakeRequest): Books {
    b.(jobs := b.jobs + [NewJob(b, warranties, req)], numbers := Advanced(b.numbers, b.codes, JobScope(req)))
  }

  function JobSlot(b: Books, job: nat, product: Id): Slot
    requires job < |b.jobs|
  {
    Slot(b.jobs[job].warehouse, product)
  }

  /** The job with one more line on its bill, or one less. */
  function Billed(j: RepairJob, value: int): RepairJob {
    Recomputed(j, j.partsTotal + value, j.labourCharges)
  }

  function ApplyConsume(b: Books, job: nat, product: Id, unitPrice: int, quantity: int): Books
    requires job < |b.jobs|
  {
    b.(parts := b.parts + [RepairPart(job, product, quantity, unitPrice, false)],
       jobs := b.jobs[job := Billed(b.jobs[job], LineValue(unitPrice, quantity))])
  }

  predicate CanReturn(b: Books, part: nat) {
    part < |b.parts| && !b.parts[part].returned && b.parts[part].job < |b.jobs|
  }

  function ApplyReturn(b: Books, part: nat): Books
    requires CanReturn(b, part)
  {
    var p := b.parts[part];
    b.(parts := b.parts[part := p.(returned := true)],
       jobs := b.jobs[p.job := Billed(b.jobs[p.job], -LineValue(p.unitPrice, p.quantity))])
  }

  function ApplyComplete(b: Books, job: nat, labourCharges: int): Books
    requires job < |b.jobs|
  {
    b.(jobs := b.jobs[job := Recomputed(b.jobs[job], b.jobs[job].partsTotal, labourCharges).(ready := true)])
  }

  // --- Sums over one more row ----------------------------------------------------------

  lemma {:induction false} PartsSnoc(jobs: seq<RepairJob>, parts: seq<RepairPart>, p: RepairPart, job: nat, slot: Slot)
    ensures PartsValue(parts + [p], job)
         == PartsValue(parts, job) + if p.job == job && !p.returned then LineValue(p.unitPrice, p.quantity) else 0
    ensures OutAtJobs(jobs, parts + [p], slot)
         == OutAtJobs(jobs, parts, slot)
            + if p.job < |jobs| && jobs[p.job].warehouse == slot.warehouse && p.product == slot.product && !p.returned
              then p.quantity else 0
  {
    assert (parts + [p])[..|parts|] == parts;
  }

  lemma {:induction false} PartReturned(jobs: seq<RepairJob>, parts: seq<RepairPart>, id: nat, job: nat, slot: Slot)
    requires id < |parts| && !parts[id].returned
    ensures var p := parts[id];
            var after := parts[id := p.(returned := true)];
            && PartsValue(after, job)
               == PartsValue(parts, job) - (if p.job == job then LineValue(p.unitPrice, p.quantity) else 0)
            && OutAtJobs(jobs, after, slot)
               == OutAtJobs(jobs, parts, slot)
                  - if p.job < |jobs| && jobs[p.job].warehouse == slot.warehouse && p.product == slot.product
                    then p.quantity else 0
  {
    var n := |parts| - 1;
    var after := parts[id := parts[id].(returned := true)];
    if id < n {
      PartReturned(jobs, parts[..n], id, job, slot);
      assert after[..n] == parts[..n][id := parts[id].(returned := true)];
    } else {
      assert after[..n] == parts[..n];
    }
  }

  lemma {:induction false} OutSame(jobs: seq<RepairJob>, other: seq<RepairJob>, parts: seq<RepairPart>, slot: Slot)
    requires PartsOk(jobs, parts) && |jobs| <= |other|
    requires forall j :: 0 <= j < |jobs| ==> other[j].warehouse == jobs[j].warehouse
    ensures OutAtJobs(other, parts, slot) == OutAtJobs(jobs, parts, slot)
  {
    if parts != [] {
      var n := |parts| - 1;
      assert forall p :: 0 <= p < n ==> parts[..n][p] == parts[p];
      OutSame(jobs, other, parts[..n], slot);
    }
  }

  lemma {:induction false} NoParts(parts: seq<RepairPart>, job: nat)
    requires forall p :: 0 <= p < |parts| ==> parts[p].job < job
    ensures PartsValue(parts, job) == 0
  {
    if parts != [] {
      NoParts(parts[..|parts| - 1], job);
    }
  }

  lemma {:induction false} RepairSnoc(ledger: seq<Movement>, m: Movement, slot: Slot)
    ensures RepairMovements(ledger + [m], slot)
         == RepairMovements(ledger, slot)
            + if m.slot == slot && (m.kind.RepairConsumption? || m.kind.RepairReturn?) then m.quantity else 0
  {
    assert (ledger + [m])[..|ledger|] == ledger;
  }

  lemma {:induction false} RepairOutgoing(ledger: seq<Movement>, at: Slot, plan: seq<Fefo.Allocation>, slot: Slot)
    ensures RepairMovements(ledger + Outgoing(at, RepairConsumption, plan), slot)
         == RepairMovements(ledger, slot) - if slot == at then Fefo.Quantity(plan) else 0
  {
    if plan == [] {
      assert ledger + [] == ledger;
    } else {
      var n := |plan| - 1;
      var m := Movement(at, plan[n].batch, RepairConsumption, -plan[n].quantity);
      RepairOutgoing(ledger, at, plan[..n], slot);
      RepairSnoc(ledger + Outgoing(at, RepairConsumption, plan[..n]), m, slot);
      assert ledger + (Outgoing(at, RepairConsumption, plan[..n]) + [m])
          == ledger + Outgoing(at, RepairConsumption, plan[..n]) + [m];
    }
  }

  // --- What each operation keeps ----------------------------------------------------------

  lemma {:induction false} IntakeKeeps(b: Books, ledger: seq<Movement>, warranties: seq<Warranty>, req: IntakeRequest)
    requires WorkshopOk(b, ledger)
    ensures WorkshopOk(ApplyIntake(b, warranties, req), ledger)
  {
    var after := ApplyIntake(b, warranties, req).jobs;
    hide NextOf, Advanced;
    NoParts(b.parts, |b.jobs|);
    forall j | 0 <= j < |after| ensures JobOk(after[j], b.parts, j) {
      assert j < |b.jobs| ==> JobOk(b.jobs[j], b.parts, j);
    }
    forall slot ensures RepairMovements(ledger, slot) == -OutAtJobs(after, b.parts, slot) {
      OutSame(b.jobs, after, b.parts, slot);
    }
  }

  lemma {:induction false} SameWarehouses(jobs: seq<RepairJob>, parts: seq<RepairPart>, id: nat, job: RepairJob)
    requires PartsOk(jobs, parts) && id < |jobs| && job.warehouse == jobs[id].warehouse
    ensures PartsOk(jobs[id := job], parts)
    ensures forall slot :: OutAtJobs(jobs[id := job], parts, slot) == OutAtJobs(jobs, parts, slot)
  {
    var after := jobs[id := job];
    forall slot ensures OutAtJobs(after, parts, slot) == OutAtJobs(jobs, parts, slot) {
      OutSame(jobs, after, parts, slot);
    }
  }

  lemma {:induction false} ConsumeKeeps(b: Books, s: StockState, job: nat, product: Id, unitPrice: int, q: int,
                                        asOf: Fefo.Date, plan: seq<Fefo.Allocation>)
    requires WorkshopOk(b, s.ledger) && job < |b.jobs| && IssueOk(s, JobSlot(b, job, product), q, asOf, plan)
    ensures WorkshopOk(ApplyConsume(b, job, product, unitPrice, q),
                       ApplyIssue(s, JobSlot(b, job, product), RepairConsumption, plan).ledger)
  {
    var slot := JobSlot(b, job, product);
    var part := RepairPart(job, product, q, unitPrice, false);
    var after := ApplyConsume(b, job, product, unitPrice, q);
    hide LineValue;
    forall j | 0 <= j < |after.jobs| ensures JobOk(after.jobs[j], after.parts, j) {
      assert JobOk(b.jobs[j], b.parts, j);
      PartsSnoc(b.jobs, b.parts, part, j, slot);
    }
    SameWarehouses(b.jobs, b.parts, job, after.jobs[job]);
    forall at
      ensures RepairMovements(ApplyIssue(s, slot, RepairConsumption, plan).ledger, at)
           == -OutAtJobs(after.jobs, after.parts, at)
    {
      RepairOutgoing(s.ledger, slot, plan, at);
      PartsSnoc(after.jobs, b.parts, part, 0, at);
    }
  }

  lemma {:induction false} ReturnKeeps(b: Books, s: StockState, part: nat)
    requires WorkshopOk(b, s.ledger) && CanReturn(b, part)
    ensures var p := b.parts[part];
            WorkshopOk(ApplyReturn(b, part),
                       ApplyPost(s, JobSlot(b, p.job, p.product), None, RepairReturn, p.quantity).ledger)
  {
    var p, after := b.parts[part], ApplyReturn(b, part);
    var slot := JobSlot(b, p.job, p.product);
    var move := Movement(slot, None, RepairReturn, p.quantity);
    hide LineValue;
    forall j | 0 <= j < |after.jobs| ensures JobOk(after.jobs[j], after.parts, j) {
      assert JobOk(b.jobs[j], b.parts, j);
      PartReturned(b.jobs, b.parts, part, j, slot);
    }
    SameWarehouses(b.jobs, b.parts, p.job, after.jobs[p.job]);
    forall at ensures RepairMovements(s.ledger + [move], at) == -OutAtJobs(after.jobs, after.parts, at) {
      RepairSnoc(s.ledger, move, at);
      PartReturned(after.jobs, b.parts, part, 0, at);
    }
  }

  // --- Consuming, then returning -------------------------------------------------------------

  /** Every row holds what it held. */
  ghost predicate SameRows(a: Shelf, b: Shelf) {
    forall batch :: OnHandAt(a, batch) == OnHandAt(b, batch)
  }

  /** Returning what was consumed restores the product's total on hand; each row is
      restored exactly when everything had come from the un-batched row, because
      that is where the return lands. */
  lemma {:induction false} ReturnRestoresTotal(s: StockState, slot: Slot, q: int, asOf: Fefo.Date,
                                               plan: seq<Fefo.Allocation>)
    requires Projected(s) && IssueOk(s, slot, q, asOf, plan)
    ensures var after := ApplyPost(ApplyIssue(s, slot, RepairConsumption, plan), slot, None, RepairReturn, q);
            && OnHandTotal(ShelfAt(after.shelves, slot)) == OnHandTotal(ShelfAt(s.shelves, slot))
            && (SameRows(ShelfAt(after.shelves, slot), ShelfAt(s.shelves, slot)) <==> Fefo.Taken(plan, None) == q)
  {
    var shelf := ShelfAt(s.shelves, slot);
    assert NonNegative(shelf);
    IssueEffect(shelf, asOf, q, plan);
    PostEffect(Issued(shelf, plan), None, q);
    RowsAfterReturn(shelf, asOf, q, plan);
    hide OnHandTotal, Issued, Posted, SameRows, Fefo.Taken;
    var after := ApplyPost(ApplyIssue(s, slot, RepairConsumption, plan), slot, None, RepairReturn, q);
    assert ShelfAt(after.shelves, slot) == Posted(Issued(shelf, plan), None, q);
  }

  lemma {:induction false} RowsAfterReturn(shelf: Shelf, asOf: Fefo.Date, q: int, plan: seq<Fefo.Allocation>)
    requires NonNegative(shelf) && 0 < q && Fefo.IsEarliestFirst(UsableAt(shelf, asOf), q, plan)
    ensures SameRows(Posted(Issued(shelf, plan), None, q), shelf) <==> Fefo.Taken(plan, None) == q
  {
    var after := Posted(Issued(shelf, plan), None, q);
    UsablePlan(shelf, asOf, q, plan);
    if None !in shelf {
      Fefo.TakenNothing(plan, None);
    }
    forall b
      ensures OnHandAt(after, b)
           == OnHandAt(shelf, b) - (if b in shelf then Fefo.Taken(plan, b) else 0) + if b == None then q else 0
    {
      RowAfterReturn(shelf, plan, q, b);
    }
    if Fefo.Taken(plan, None) == q {
      OnlyUnbatched(shelf, plan, q);
    } else {
      assert OnHandAt(after, None) != OnHandAt(shelf, None);
    }
  }

  lemma {:induction false} RowAfterReturn(shelf: Shelf, plan: seq<Fefo.Allocation>, q: int, b: Fefo.BatchRef)
    ensures OnHandAt(Posted(Issued(shelf, plan), None, q), b)
         == OnHandAt(shelf, b) - (if b in shelf then Fefo.Taken(plan, b) else 0) + if b == None then q else 0
  {
  }

  /** When one batch supplies the whole plan, no other supplies any. */
  lemma {:induction false} OnlyUnbatched(shelf: Shelf, plan: seq<Fefo.Allocation>, q: int)
    requires forall b :: b in shelf ==> 0 <= Fefo.Taken(plan, b)
    requires Total(Fefo.TakenMap(plan, shelf.Keys)) == q && Fefo.Taken(plan, None) == q
    requires None in shelf || q == 0
    ensures forall b :: b in shelf && b != None ==> Fefo.Taken(plan, b) == 0
  {
    forall b | b in shelf && b != None ensures Fefo.Taken(plan, b) == 0 {
      var taken := Fefo.TakenMap(plan, shelf.Keys);
      if None in shelf {
        TotalRemove(taken, None);
        TotalRemove(taken - {None}, b);
        TotalNonNegative(taken - {None} - {b});
      } else {
        TotalRemove(taken, b);
        TotalNonNegative(taken - {b});
      }
    }
  }

  // --- Everything else leaves repair movements alone -----------------------------------------

  predicate IsRepair(kind: MovementType) { kind.RepairConsumption? || kind.RepairReturn? }

  /** The ledger grew by movements of other kinds only. */
  ghost predicate NoRepairs(before: seq<Movement>, after: seq<Movement>) {
    before <= after && forall k :: |before| <= k < |after| ==> !IsRepair(after[k].kind)
  }

  lemma {:induction false} MovementsSame(before: seq<Movement>, after: seq<Movement>, slot: Slot)
    requires NoRepairs(before, after)
    ensures RepairMovements(after, slot) == RepairMovements(before, slot)
  {
    if |before| < |after| {
      MovementsSame(before, after[..|after| - 1], slot);
    } else {
      assert before == after;
    }
  }

  lemma {:induction false} IssueNoRepairs(s: StockState, slot: Slot, kind: MovementType, plan: seq<Fefo.Allocation>)
    requires !IsRepair(kind)
    ensures NoRepairs(s.ledger, ApplyIssue(s, slot, kind, plan).ledger)
  {
    OutgoingRows(slot, kind, plan);
  }

  lemma {:induction false} IssueLinesNoRepairs(s: StockState, w: Id, lines: seq<Line>, kind: MovementType,
                                               plans: seq<seq<Fefo.Allocation>>)
    requires |plans| == |lines| && !IsRepair(kind)
    ensures NoRepairs(s.ledger, IssueLines(s, w, lines, kind, plans).ledger)
  {
    if lines != [] {
      var n := |lines| - 1;
      IssueLinesNoRepairs(s, w, lines[..n], kind, plans[..n]);
      IssueNoRepairs(IssueLines(s, w, lines[..n], kind, plans[..n]), Slot(w, lines[n].product), kind, plans[n]);
    }
  }

  lemma {:induction false} ReserveLinesNoMoves(s: StockState, w: Id, lines: seq<Line>, plans: seq<seq<Fefo.Allocation>>)
    requires |plans| == |lines|
    ensures ReserveLines(s, w, lines, plans).ledger == s.ledger
  {
    if lines != [] {
      ReserveLinesNoMoves(s, w, lines[..|lines| - 1], plans[..|lines| - 1]);
    }
  }

  lemma {:induction false} DispatchLinesNoRepairs(s: StockState, w: Id, lines: seq<Line>, plans: seq<DispatchPlan>)
    requires |plans| == |lines|
    ensures NoRepairs(s.ledger, DispatchLines(s, w, lines, plans).ledger)
  {
    if lines != [] {
      var n := |lines| - 1;
      DispatchLinesNoRepairs(s, w, lines[..n], plans[..n]);
      var before, slot := DispatchLines(s, w, lines[..n], plans[..n]), Slot(w, lines[n].product);
      IssueNoRepairs(ApplyRelease(before, slot, plans[n].release), slot, WholesaleSale, plans[n].issue);
    }
  }

  /** Other movements leave the workshop as it was. */
  lemma {:induction false} WorkshopKept(b: Books, later: Books, before: seq<Movement>, after: seq<Movement>)
    requires WorkshopOk(b, before) && NoRepairs(before, after) && later.jobs == b.jobs && later.parts == b.parts
    ensures WorkshopOk(later, after)
  {
    forall slot ensures RepairMovements(after, slot) == -OutAtJobs(b.jobs, b.parts, slot) {
      MovementsSame(before, after, slot);
    }
  }

  lemma {:induction false} CompleteKeeps(b: Books, ledger: seq<Movement>, job: nat, labourCharges: int)
    requires WorkshopOk(b, ledger) && job < |b.jobs|
    ensures WorkshopOk(ApplyComplete(b, job, labourCharges), ledger)
  {
    var after := ApplyComplete(b, job, labourCharges);
    SameWarehouses(b.jobs, b.parts, job, after.jobs[job]);
    forall j | 0 <= j < |after.jobs| ensures JobOk(after.jobs[j], b.parts, j) {
      assert JobOk(b.jobs[j], b.parts, j);
    }
  }
}
