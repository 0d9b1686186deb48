/** backend/app/modules/service_jobs/service.py: repair jobs and the spare parts they
    consume and return, statement by statement. */
module ServiceJobs {
  import opened Prelude
  import Fefo
  import opened Stock
  import opened StockLines
  import opened Inventory
  import opened Money
  import opened Documents
  import opened Persistence
  import opened Numbering
  import opened Registers
  import opened Catalogue
  import opened Repairs

  datatype RepairError =
    | UnknownBranch
    | NumberTaken
    | UnknownJob
    | QuantityNotPositive
    | UnknownPart
    | NotEnough
    | AlreadyReturned

  class ServiceJobService {
    const db: Database
    const inventory: InventoryService
    const numbering: NumberingService

    constructor (db: Database, repo: InventoryRepository)
      ensures this.db == db && inventory.repo == repo && Wired()
    {
      this.db := db;
      inventory := new InventoryService(repo);
      numbering := new NumberingService(db);
    }

    ghost predicate Wired() {
      numbering.db == db
    }

    ghost predicate Valid()
      reads db, inventory.repo
    {
      Wired() && inventory.repo.Valid() && WorkshopOk(db.View(), inventory.repo.ledger)
    }

    /** A new job starts with nothing on it. It needs a free number
        (uq_repair_job_number) and is under warranty exactly when its serial number has
        a warranty that covers the day it came in. */
    method CreateJob(warranties: seq<Warranty>, req: IntakeRequest) returns (r: Result<nat, RepairError>)
      requires Valid()
      modifies db`numbers, db`jobs
      ensures Valid()
      ensures r.Ok? <==> CanIssue(old(db.View()), JobScope(req))
      ensures r.Ok? ==> r.value == |old(db.jobs)| && db.View() == ApplyIntake(old(db.View()), warranties, req)
      ensures r.Ok? ==> IsIntakeOf(db.jobs[r.value], warranties, req)
      ensures r.Err? ==> db.View() == old(db.View())
    {
      var b := db.View();
      hide Printed, Advanced, NextOf, WorkshopOk;
      var number := numbering.NextNumber(JobScope(req));
      if number.Err? || !KnownBranch(req.branch, db.codes) {
        db.numbers := b.numbers;
        return Err(RepairError.UnknownBranch);
      }
      var covered := UnderWarranty(warranties, req.serial, req.receivedDate);
      if !Free(JobRows(db.jobs), number.value) {
        db.numbers := b.numbers;
        return Err(NumberTaken);
      }
      IntakeKeeps(b, inventory.repo.ledger, warranties, req);
      IntakeIs(b, warranties, req);
      r := Ok(|db.jobs|);
      db.jobs := db.jobs + [RepairJob(req.branch, number.value, req.warehouse, covered, 0, 0, 0, false)];
    }

    /** Deduct a part and bill it to the job at its retail price. */
    method ConsumePart(products: map<Id, Product>, id: nat, product: Id, baseQuantity: int, asOf: Date)
      returns (r: Result<nat, RepairError>, ghost plan: seq<Fefo.Allocation>)
      requires Valid()
      modifies db, inventory.repo
      ensures Valid()
      ensures r.Ok? <==> id < |old(db.jobs)| && product in products
                         && var slot := JobSlot(old(db.View()), id, product);
                            0 < baseQuantity <= UsableIn(old(inventory.repo.View()), slot, asOf)
      ensures r.Ok? ==>
                var slot := JobSlot(old(db.View()), id, product);
                && IssueOk(old(inventory.repo.View()), slot, baseQuantity, asOf, plan)
                && inventory.repo.View() == ApplyIssue(old(inventory.repo.View()), slot, RepairConsumption, plan)
                && MovesOut(old(inventory.repo.ledger), inventory.repo.ledger, slot.warehouse, RepairConsumption)
                && r.value == |old(db.parts)|
                && db.View() == ApplyConsume(old(db.View()), id, product, products[product].retailPrice, baseQuantity)
                && db.parts[r.value] == RepairPart(id, product, baseQuantity, products[product].retailPrice, false)
                && IsNearest(products[product].retailPrice * baseQuantity, 1000,
                             db.jobs[id].partsTotal - old(db.jobs)[id].partsTotal)
      ensures r.Err? ==> db.View() == old(db.View()) && inventory.repo.View() == old(inventory.repo.View())
    {
      plan := [];
      if |db.jobs| <= id {
        return Err(UnknownJob), plan;
      }
      if baseQuantity <= 0 {
        return Err(RepairError.QuantityNotPositive), plan;
      }
      if product !in products {
        return Err(UnknownPart), plan;
      }
      ghost var b, s := db.View(), inventory.repo.View();
      hide LineValue, WorkshopOk, ApplyIssue, IssueOk, UsableIn, ApplyConsume;
      var job, unitPrice := db.jobs[id], products[product].retailPrice;
      var slot := Slot(job.warehouse, product);
      var issued := inventory.IssueFefo(slot, baseQuantity, RepairConsumption, asOf);
      if issued.Err? {
        return Err(NotEnough), plan;
      }
      plan := issued.value;
      hide IsNearest;
      HalfUpIsNearest(unitPrice * baseQuantity, 1000);
      ConsumeKeeps(b, s, id, product, unitPrice, baseQuantity, asOf, plan);
      r := Ok(|db.parts|);
      BillPart(id, product, unitPrice, baseQuantity);
    }

    /** Insert the part's row and add its value to the job's bill. */
    method BillPart(id: nat, product: Id, unitPrice: int, quantity: int)
      requires id < |db.jobs|
      modifies db`parts, db`jobs
      ensures db.View() == ApplyConsume(old(db.View()), id, product, unitPrice, quantity)
    {
      hide LineValue;
      var job := db.jobs[id];
      db.parts := db.parts + [RepairPart(id, product, quantity, unitPrice, false)];
      db.jobs := db.jobs[id := Recomputed(job, job.partsTotal + LineValue(unitPrice, quantity), job.labourCharges)];
    }

    /** Put a part back, on the un-batched row, and take it off the bill. */
    method ReturnPart(id: nat) returns (r: Result<(), RepairError>)
      requires Valid()
      modifies db, inventory.repo
      ensures Valid()
      ensures r.Ok? <==> CanReturn(old(db.View()), id)
      ensures r == Err(AlreadyReturned) <==> id < |old(db.parts)| && old(db.parts)[id].returned
      ensures r.Ok? ==>
                var part := old(db.parts)[id];
                && db.View() == ApplyReturn(old(db.View()), id)
                && IsNearest(part.unitPrice * part.quantity, 1000,
                             old(db.jobs)[part.job].partsTotal - db.jobs[part.job].partsTotal)
                && inventory.repo.View()
                   == ApplyPost(old(inventory.repo.View()), JobSlot(old(db.View()), part.job, part.product), None,
                                RepairReturn, part.quantity)
      ensures r.Err? ==> db.View() == old(db.View()) && inventory.repo.View() == old(inventory.repo.View())
    {
      if |db.parts| <= id {
        return Err(UnknownPart);
      }
      var part := db.parts[id];
      if part.returned {
        return Err(AlreadyReturned);
      }
      ghost var b, s := db.View(), inventory.repo.View();
      PartIsOut(b, s.ledger, id);
      hide LineValue, WorkshopOk;
      var job := db.jobs[part.job];
      var slot := Slot(job.warehouse, part.product);
      assert NonNegative(ShelfAt(inventory.repo.shelves, slot));
      HalfUpIsNearest(part.unitPrice * part.quantity, 1000);
      ReturnKeeps(b, s, id);
      var posted := inventory.PostMovement(slot, RepairReturn, part.quantity, None, None);
      db.parts := db.parts[id := part.(returned := true)];
      db.jobs := db.jobs[part.job :=
        Recomputed(job, job.partsTotal - LineValue(part.unitPrice, part.quantity), job.labourCharges)];
      r := Ok(());
    }

    method SetLabourAndComplete(id: nat, labourCharges: int) returns (r: Result<int, RepairError>)
      requires Valid()
      modifies db`jobs
      ensures Valid()
      ensures r.Ok? <==> id < |old(db.jobs)|
      ensures r.Ok? ==>
                && db.View() == ApplyComplete(old(db.View()), id, labourCharges)
                && r.value == labourCharges
                              + (if old(db.jobs)[id].underWarranty then 0 else PartsValue(db.parts, id))
                && db.jobs[id] == old(db.jobs)[id].(labourCharges := labourCharges, customerPayable := r.value,
                                                    ready := true)
      ensures r.Err? ==> db.View() == old(db.View())
    {
      if |db.jobs| <= id {
        return Err(UnknownJob);
      }
      assert JobOk(db.jobs[id], db.parts, id);
      CompleteKeeps(db.View(), inventory.repo.ledger, id, labourCharges);
      var job := Recomputed(db.jobs[id], db.jobs[id].partsTotal, labourCharges).(ready := true);
      db.jobs := db.jobs[id := job];
      r := Ok(job.customerPayable);
    }
  }

  /** A new job in the request's own terms: under warranty when some warranty of its
      serial number covers the day, with nothing on its bill. */
  ghost predicate IsIntakeOf(j: RepairJob, warranties: seq<Warranty>, req: IntakeRequest) {
    && j.branch == req.branch && j.warehouse == req.warehouse && !j.ready
    && j.labourCharges == j.partsTotal == j.customerPayable == 0
    && (j.underWarranty <==> exists w :: w in warranties && Some(w.serial) == req.serial
                                         && w.startDate <= req.receivedDate && req.receivedDate <= w.endDate)
  }

  lemma {:induction false} IntakeIs(b: Books, warranties: seq<Warranty>, req: IntakeRequest)
    ensures IsIntakeOf(NewJob(b, warranties, req), warranties, req)
  {
    hide NextOf;
    if req.serial.Some? {
      forall w | w in warranties && w.serial == req.serial.value && w.startDate <= req.receivedDate <= w.endDate
        ensures UnderWarranty(warranties, req.serial, req.receivedDate)
      {
        var k :| 0 <= k < |warranties| && warranties[k] == w;
        assert Covers(warranties[k], req.serial.value, req.receivedDate);
      }
    }
  }

  lemma {:induction false} PartIsOut(b: Books, ledger: seq<Movement>, id: nat)
    requires WorkshopOk(b, ledger) && id < |b.parts|
    ensures b.parts[id].job < |b.jobs| && 0 < b.parts[id].quantity
  {
  }
}
