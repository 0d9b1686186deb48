/** backend/app/modules/inventory/fefo.py: First-Expiry-First-Out allocation.

    Quantities are in 1/1000 of a base unit. A batch is immutable once created,
    so a reference to it carries its expiry date; the un-batched row is None. */
module Fefo {
  import opened Prelude
  import opened MapSum

  type Date = int

  datatype Batch = Batch(id: nat, expiry: Option<Date>)

  type BatchRef = Option<Batch>

  datatype BatchAvailability = BatchAvailability(batch: BatchRef, available: int)

  datatype Allocation = Allocation(batch: BatchRef, quantity: int)

  datatype FefoError =
    | NonPositiveRequest
    | InsufficientStock(requested: int, available: int)

  function ExpiryOf(b: BatchRef): Option<Date> {
    if b.Some? then b.value.expiry else None
  }

  /** The sort key, strictly: dated batches by date, undated ones last. */
  predicate ExpiresBefore(a: BatchRef, b: BatchRef) {
    ExpiryOf(a).Some? && (ExpiryOf(b).None? || ExpiryOf(a).value < ExpiryOf(b).value)
  }

  /** Expired on or before `asOf`. */
  predicate ExpiredBy(b: BatchRef, asOf: Date) {
    ExpiryOf(b).Some? && ExpiryOf(b).value <= asOf
  }

  predicate IsUsable(r: BatchAvailability, asOf: Date) {
    0 < r.available && !ExpiredBy(r.batch, asOf)
  }

  function Usable(rows: seq<BatchAvailability>, asOf: Date): (u: seq<BatchAvailability>)
    ensures forall r :: r in u <==> r in rows && IsUsable(r, asOf)
  {
    if rows == [] then []
    else
      var n := |rows| - 1;
      Usable(rows[..n], asOf) + if IsUsable(rows[n], asOf) then [rows[n]] else []
  }

  function SumAvailable(rows: seq<BatchAvailability>): int {
    if rows == [] then 0 else SumAvailable(rows[..|rows| - 1]) + rows[|rows| - 1].available
  }

  // --- sorted(..., key=_sort_key) ----------------------------------------------

  function InsertByExpiry(rows: seq<BatchAvailability>, x: BatchAvailability): (s: seq<BatchAvailability>)
    ensures |s| == |rows| + 1
    ensures forall r :: r in s <==> r in rows || r == x
  {
    var n := |rows| - 1;
    if rows != [] && ExpiresBefore(x.batch, rows[n].batch) then InsertByExpiry(rows[..n], x) + [rows[n]]
    else rows + [x]
  }

  /** Python's stable sort on the expiry key. */
  function SortByExpiry(rows: seq<BatchAvailability>): (s: seq<BatchAvailability>)
    ensures |s| == |rows|
    ensures forall r :: r in s <==> r in rows
  {
    if rows == [] then [] else InsertByExpiry(SortByExpiry(rows[..|rows| - 1]), rows[|rows| - 1])
  }

  ghost predicate Sorted(rows: seq<BatchAvailability>) {
    forall i, j :: 0 <= i < j < |rows| ==> !ExpiresBefore(rows[j].batch, rows[i].batch)
  }

  ghost predicate Distinct(rows: seq<BatchAvailability>) {
    forall i, j :: 0 <= i < j < |rows| ==> rows[i].batch != rows[j].batch
  }

  lemma {:induction false} InsertSorts(rows: seq<BatchAvailability>, x: BatchAvailability)
    requires Sorted(rows)
    ensures Sorted(InsertByExpiry(rows, x))
    ensures SumAvailable(InsertByExpiry(rows, x)) == SumAvailable(rows) + x.available
  {
    var n := |rows| - 1;
    if rows != [] && ExpiresBefore(x.batch, rows[n].batch) {
      InsertSorts(rows[..n], x);
      var s := InsertByExpiry(rows[..n], x);
      assert (s + [rows[n]])[..n + 1] == s;
      forall i | 0 <= i < |s| ensures !ExpiresBefore(rows[n].batch, s[i].batch) {
        assert s[i] in s;
      }
    } else {
      assert (rows + [x])[..|rows|] == rows;
      forall i | 0 <= i < |rows| ensures !ExpiresBefore(x.batch, rows[i].batch) {
        assert i == n || !ExpiresBefore(rows[n].batch, rows[i].batch);
      }
    }
  }

  lemma {:induction false} InsertKeepsDistinct(rows: seq<BatchAvailability>, x: BatchAvailability)
    requires Distinct(rows) && forall i :: 0 <= i < |rows| ==> rows[i].batch != x.batch
    ensures Distinct(InsertByExpiry(rows, x))
  {
    var n := |rows| - 1;
    if rows != [] && ExpiresBefore(x.batch, rows[n].batch) {
      InsertKeepsDistinct(rows[..n], x);
      var s := InsertByExpiry(rows[..n], x);
      forall i | 0 <= i < |s| ensures s[i].batch != rows[n].batch {
        assert s[i] in s;
      }
    }
  }

  lemma {:induction false} SortSorts(rows: seq<BatchAvailability>)
    ensures Sorted(SortByExpiry(rows))
    ensures SumAvailable(SortByExpiry(rows)) == SumAvailable(rows)
    ensures Distinct(rows) ==> Distinct(SortByExpiry(rows))
  {
    if rows != [] {
      var front, x := rows[..|rows| - 1], rows[|rows| - 1];
      SortSorts(front);
      InsertSorts(SortByExpiry(front), x);
      if Distinct(rows) {
        forall i | 0 <= i < |front| ensures SortByExpiry(front)[i].batch != x.batch {
          assert SortByExpiry(front)[i] in front;
        }
        InsertKeepsDistinct(SortByExpiry(front), x);
      }
    }
  }

  // --- The walk -----------------------------------------------------------------

  /** Take from the front until nothing remains to be taken. */
  function Walk(rows: seq<BatchAvailability>, q: int): seq<Allocation> {
    if q <= 0 || rows == [] then []
    else
      var take := Min(rows[0].available, q);
      [Allocation(rows[0].batch, take)] + Walk(rows[1..], q - take)
  }

  function FefoPlan(rows: seq<BatchAvailability>, q: int, asOf: Date): seq<Allocation> {
    Walk(SortByExpiry(Usable(rows, asOf)), q)
  }

  // --- In the batches' own dates -------------------------------------------------

  /** Undated, or expiring after `asOf`. */
  predicate Fresh(b: BatchRef, asOf: Date) {
    b.Some? && b.value.expiry.Some? ==> asOf < b.value.expiry.value
  }

  /** Sum of the rows with something fresh. */
  function FreshTotal(rows: seq<BatchAvailability>, asOf: Date): int {
    if rows == [] then 0
    else
      var last := rows[|rows| - 1];
      FreshTotal(rows[..|rows| - 1], asOf) + if 0 < last.available && Fresh(last.batch, asOf) then last.available else 0
  }

  ghost predicate AllFresh(plan: seq<Allocation>, asOf: Date) {
    forall k :: 0 <= k < |plan| ==> Fresh(plan[k].batch, asOf)
  }

  lemma {:induction false} UsableIsFresh(rows: seq<BatchAvailability>, asOf: Date)
    ensures SumAvailable(Usable(rows, asOf)) == FreshTotal(rows, asOf)
  {
    if rows != [] {
      var n := |rows| - 1;
      UsableIsFresh(rows[..n], asOf);
      var u := Usable(rows[..n], asOf);
      assert (u + [rows[n]])[..|u|] == u;
      assert u + [] == u;
    }
  }

  lemma {:induction false} WalkPicks(rows: seq<BatchAvailability>, q: int)
    ensures forall a :: a in Walk(rows, q) ==> exists r :: r in rows && r.batch == a.batch
    decreases |rows|
  {
    if 0 < q && rows != [] {
      WalkPicks(rows[1..], q - Min(rows[0].available, q));
      forall a | a in Walk(rows, q) ensures exists r :: r in rows && r.batch == a.batch {
        if a == Walk(rows, q)[0] {
          assert rows[0] in rows;
        } else {
          assert a in Walk(rows[1..], q - Min(rows[0].available, q));
          var r :| r in rows[1..] && r.batch == a.batch;
          assert r in rows;
        }
      }
    }
  }

  /** A plan never picks a batch from its expiry date on. */
  lemma {:induction false} FefoPlanIsFresh(rows: seq<BatchAvailability>, q: int, asOf: Date)
    ensures AllFresh(FefoPlan(rows, q, asOf), asOf)
  {
    var plan := FefoPlan(rows, q, asOf);
    WalkPicks(SortByExpiry(Usable(rows, asOf)), q);
    forall k | 0 <= k < |plan| ensures Fresh(plan[k].batch, asOf) {
      assert plan[k] in plan;
      var r :| r in SortByExpiry(Usable(rows, asOf)) && r.batch == plan[k].batch;
    }
  }

  method AllocateFefo(batches: seq<BatchAvailability>, required: int, asOf: Date)
    returns (r: Result<seq<Allocation>, FefoError>)
    ensures r == Err(NonPositiveRequest) <==> required <= 0
    ensures r.Ok? <==> 0 < required <= FreshTotal(batches, asOf)
    ensures r.Ok? ==> r.value == FefoPlan(batches, required, asOf) && AllFresh(r.value, asOf)
  {
    UsableIsFresh(batches, asOf);
    FefoPlanIsFresh(batches, required, asOf);
    if required <= 0 {
      return Err(NonPositiveRequest);
    }
    var usable := Usable(batches, asOf);
    var totalAvailable := SumAvailable(usable);
    if totalAvailable < required {
      return Err(InsufficientStock(required, totalAvailable));
    }
    var allocations := [];
    var remaining := required;
    var sorted := SortByExpiry(usable);
    var i := 0;
    while i < |sorted| && 0 < remaining
      invariant 0 <= i <= |sorted|
      invariant allocations + Walk(sorted[i..], remaining) == FefoPlan(batches, required, asOf)
    {
      var take := Min(sorted[i].available, remaining);
      assert sorted[i..][1..] == sorted[i + 1..];
      allocations := allocations + [Allocation(sorted[i].batch, take)];
      remaining := remaining - take;
      i := i + 1;
    }
    r := Ok(allocations);
  }

  // --- What a plan is ------------------------------------------------------------

  function Quantity(plan: seq<Allocation>): int {
    if plan == [] then 0 else Quantity(plan[..|plan| - 1]) + plan[|plan| - 1].quantity
  }

  /** How much the plan takes from one batch. */
  function Taken(plan: seq<Allocation>, b: BatchRef): int {
    if plan == [] then 0
    else Taken(plan[..|plan| - 1], b) + if plan[|plan| - 1].batch == b then plan[|plan| - 1].quantity else 0
  }

  function TakenMap(plan: seq<Allocation>, keys: set<BatchRef>): (m: map<BatchRef, int>)
    ensures m.Keys == keys
  {
    map b | b in keys :: Taken(plan, b)
  }

  /** `plan` takes positive amounts within `caps` from distinct batches. */
  ghost predicate Fits(caps: map<BatchRef, int>, plan: seq<Allocation>) {
    && (forall k :: 0 <= k < |plan| ==>
          plan[k].batch in caps && 0 < plan[k].quantity <= caps[plan[k].batch])
    && (forall k, l :: 0 <= k < l < |plan| ==> plan[k].batch != plan[l].batch)
  }

  /** `plan` takes exactly `q`, and touches a batch only when every batch
      expiring earlier is exhausted. Rows of equal expiry may come in any order. */
  ghost predicate IsEarliestFirst(caps: map<BatchRef, int>, q: int, plan: seq<Allocation>) {
    && Fits(caps, plan)
    && Quantity(plan) == q
    && (forall k, b :: 0 <= k < |plan| && b in caps && ExpiresBefore(b, plan[k].batch) ==> Taken(plan, b) == caps[b])
  }

  lemma {:induction false} TakenIs(plan: seq<Allocation>, k: nat)
    requires k < |plan|
    requires forall i, j :: 0 <= i < j < |plan| ==> plan[i].batch != plan[j].batch
    ensures Taken(plan, plan[k].batch) == plan[k].quantity
  {
    var n := |plan| - 1;
    if k < n {
      TakenIs(plan[..n], k);
    } else {
      TakenNothing(plan[..n], plan[n].batch);
    }
  }

  lemma {:induction false} TakenNothing(plan: seq<Allocation>, b: BatchRef)
    requires forall k :: 0 <= k < |plan| ==> plan[k].batch != b
    ensures Taken(plan, b) == 0
  {
    if plan != [] {
      TakenNothing(plan[..|plan| - 1], b);
    }
  }

  lemma {:induction false} TakenBounds(caps: map<BatchRef, int>, plan: seq<Allocation>, b: BatchRef)
    requires Fits(caps, plan)
    ensures 0 <= Taken(plan, b)
    ensures b in caps && 0 <= caps[b] ==> Taken(plan, b) <= caps[b]
    ensures 0 < Taken(plan, b) ==> exists k :: 0 <= k < |plan| && plan[k].batch == b
  {
    if exists k :: 0 <= k < |plan| && plan[k].batch == b {
      var k :| 0 <= k < |plan| && plan[k].batch == b;
      TakenIs(plan, k);
    } else {
      TakenNothing(plan, b);
    }
  }

  lemma {:induction false} TotalTaken(plan: seq<Allocation>, keys: set<BatchRef>)
    requires forall k :: 0 <= k < |plan| ==> plan[k].batch in keys
    ensures Total(TakenMap(plan, keys)) == Quantity(plan)
  {
    if plan == [] {
      TotalZero(TakenMap(plan, keys));
    } else {
      var front, a := plan[..|plan| - 1], plan[|plan| - 1];
      TotalTaken(front, keys);
      TotalUpdate(TakenMap(front, keys), a.batch, Taken(front, a.batch) + a.quantity);
      assert TakenMap(plan, keys) == TakenMap(front, keys)[a.batch := Taken(front, a.batch) + a.quantity];
    }
  }

  // --- Dominance -----------------------------------------------------------------

  /** The part of `m` on batches expired by `d`. */
  function ExpiringBy(m: map<BatchRef, int>, d: Date): (r: map<BatchRef, int>)
    ensures r.Keys == m.Keys
  {
    map b | b in m :: if ExpiredBy(b, d) then m[b] else 0
  }

  /** For every date, a plan takes from the batches expiring by then the most
      that its quantity and their availability allow. */
  lemma {:induction false} Dominance(caps: map<BatchRef, int>, q: int, plan: seq<Allocation>, d: Date)
    requires IsEarliestFirst(caps, q, plan)
    requires forall b :: b in caps ==> 0 <= caps[b]
    ensures Total(ExpiringBy(TakenMap(plan, caps.Keys), d)) == Min(q, Total(ExpiringBy(caps, d)))
  {
    var taken := TakenMap(plan, caps.Keys);
    forall b | b in caps ensures 0 <= taken[b] <= caps[b] {
      TakenBounds(caps, plan, b);
    }
    TotalTaken(plan, caps.Keys);
    TotalAtMost(ExpiringBy(taken, d), taken);
    TotalAtMost(ExpiringBy(taken, d), ExpiringBy(caps, d));
    if exists k :: 0 <= k < |plan| && !ExpiredBy(plan[k].batch, d) {
      var k :| 0 <= k < |plan| && !ExpiredBy(plan[k].batch, d);
      assert ExpiringBy(taken, d) == ExpiringBy(caps, d);
    } else {
      forall b | b in caps && !ExpiredBy(b, d) ensures taken[b] == 0 {
        TakenBounds(caps, plan, b);
      }
      assert ExpiringBy(taken, d) == taken;
    }
  }

  /** Hence the arrival order of the rows cannot change what expires first. */
  lemma {:induction false} OrderIndependence(caps: map<BatchRef, int>, q: int, p1: seq<Allocation>,
                                             p2: seq<Allocation>, d: Date)
    requires IsEarliestFirst(caps, q, p1) && IsEarliestFirst(caps, q, p2)
    requires forall b :: b in caps ==> 0 <= caps[b]
    ensures Total(ExpiringBy(TakenMap(p1, caps.Keys), d)) == Total(ExpiringBy(TakenMap(p2, caps.Keys), d))
  {
    Dominance(caps, q, p1, d);
    Dominance(caps, q, p2, d);
  }

  // --- The code meets the specification ---------------------------------------------

  /** `rows` are the positive entries of `caps`, each once, in some order. */
  ghost predicate Lists(rows: seq<BatchAvailability>, caps: map<BatchRef, int>) {
    && Distinct(rows)
    && (forall b :: b in caps ==> 0 <= caps[b])
    && (forall i :: 0 <= i < |rows| ==> rows[i].batch in caps && 0 < rows[i].available == caps[rows[i].batch])
    && (forall b :: b in caps && 0 < caps[b] ==> BatchAvailability(b, caps[b]) in rows)
  }

  function UsableCaps(caps: map<BatchRef, int>, asOf: Date): (r: map<BatchRef, int>)
    ensures r.Keys == caps.Keys
  {
    map b | b in caps :: if ExpiredBy(b, asOf) then 0 else caps[b]
  }

  /** Nor does any plan over what is usable, however it was chosen. */
  lemma {:induction false} UsablePlanIsFresh(caps: map<BatchRef, int>, q: int, plan: seq<Allocation>, asOf: Date)
    requires Fits(UsableCaps(caps, asOf), plan)
    ensures AllFresh(plan, asOf)
  {
  }

  lemma {:induction false} UsableDistinct(rows: seq<BatchAvailability>, asOf: Date)
    requires Distinct(rows)
    ensures Distinct(Usable(rows, asOf))
  {
    if rows != [] {
      var n := |rows| - 1;
      var u := Usable(rows[..n], asOf);
      UsableDistinct(rows[..n], asOf);
      forall i | 0 <= i < |u| ensures u[i].batch != rows[n].batch {
        assert u[i] in rows[..n];
      }
    }
  }

  lemma {:induction false} UsableLists(rows: seq<BatchAvailability>, caps: map<BatchRef, int>, asOf: Date)
    requires Lists(rows, caps)
    ensures Lists(Usable(rows, asOf), UsableCaps(caps, asOf))
  {
    UsableDistinct(rows, asOf);
    var u := Usable(rows, asOf);
    forall i | 0 <= i < |u|
      ensures u[i].batch in caps && 0 < u[i].available == UsableCaps(caps, asOf)[u[i].batch]
    {
      assert u[i] in rows;
    }
  }

  lemma {:induction false} SortLists(rows: seq<BatchAvailability>, caps: map<BatchRef, int>)
    requires Lists(rows, caps)
    ensures Lists(SortByExpiry(rows), caps)
  {
    SortSorts(rows);
    var s := SortByExpiry(rows);
    forall i | 0 <= i < |s| ensures s[i].batch in caps && 0 < s[i].available == caps[s[i].batch] {
      assert s[i] in rows;
    }
  }

  lemma {:induction false} ListTotal(rows: seq<BatchAvailability>, caps: map<BatchRef, int>)
    requires Lists(rows, caps)
    ensures SumAvailable(rows) == Total(caps)
  {
    if rows == [] {
      TotalZero(caps);
    } else {
      var n := |rows| - 1;
      var b := rows[n].batch;
      var rest := caps[b := 0];
      forall c | c in rest && 0 < rest[c] ensures BatchAvailability(c, rest[c]) in rows[..n] {
        assert BatchAvailability(c, caps[c]) in rows;
        assert rows == rows[..n] + [rows[n]];
      }
      ListTotal(rows[..n], rest);
      TotalUpdate(caps, b, 0);
    }
  }

  lemma {:induction false} QuantityCons(a: Allocation, plan: seq<Allocation>)
    ensures Quantity([a] + plan) == a.quantity + Quantity(plan)
  {
    if plan == [] {
      assert [a] + plan == [a];
    } else {
      var n := |plan| - 1;
      QuantityCons(a, plan[..n]);
      assert ([a] + plan)[..n + 1] == [a] + plan[..n];
    }
  }

  lemma {:induction false} TakenCons(a: Allocation, plan: seq<Allocation>, b: BatchRef)
    ensures Taken([a] + plan, b) == (if a.batch == b then a.quantity else 0) + Taken(plan, b)
  {
    if plan == [] {
      assert [a] + plan == [a];
    } else {
      var n := |plan| - 1;
      TakenCons(a, plan[..n], b);
      assert ([a] + plan)[..n + 1] == [a] + plan[..n];
    }
  }

  lemma {:induction false} SumAvailableCons(x: BatchAvailability, rows: seq<BatchAvailability>)
    ensures SumAvailable([x] + rows) == x.available + SumAvailable(rows)
  {
    if rows == [] {
      assert [x] + rows == [x];
    } else {
      var n := |rows| - 1;
      SumAvailableCons(x, rows[..n]);
      assert ([x] + rows)[..n + 1] == [x] + rows[..n];
    }
  }

  ghost predicate AllPositive(rows: seq<BatchAvailability>) {
    forall i :: 0 <= i < |rows| ==> 0 < rows[i].available
  }

  /** `plan` follows `rows` from the front, exhausting all it touches but the last. */
  ghost predicate Follows(rows: seq<BatchAvailability>, plan: seq<Allocation>) {
    && |plan| <= |rows|
    && (forall k :: 0 <= k < |plan| ==>
          plan[k].batch == rows[k].batch && 0 < plan[k].quantity <= rows[k].available)
    && (forall k :: 0 <= k < |plan| - 1 ==> plan[k].quantity == rows[k].available)
  }

  lemma {:induction false} WalkFollows(rows: seq<BatchAvailability>, q: int)
    requires AllPositive(rows)
    ensures Follows(rows, Walk(rows, q))
  {
    if 0 < q && rows != [] {
      var take := Min(rows[0].available, q);
      WalkFollows(rows[1..], q - take);
      var rest := Walk(rows[1..], q - take);
      forall k | 0 <= k < |rest|
        ensures rest[k].batch == rows[k + 1].batch && 0 < rest[k].quantity <= rows[k + 1].available
        ensures k < |rest| - 1 ==> rest[k].quantity == rows[k + 1].available
      {
        assert rows[1..][k] == rows[k + 1];
      }
    }
  }

  lemma {:induction false} WalkQuantity(rows: seq<BatchAvailability>, q: int)
    requires AllPositive(rows)
    ensures 0 <= SumAvailable(rows)
    ensures Quantity(Walk(rows, q)) == Max(0, Min(q, SumAvailable(rows)))
  {
    if rows != [] {
      var take := Min(rows[0].available, q);
      WalkQuantity(rows[1..], q - take);
      SumAvailableCons(rows[0], rows[1..]);
      assert rows == [rows[0]] + rows[1..];
      QuantityCons(Allocation(rows[0].batch, take), Walk(rows[1..], q - take));
    }
  }

  lemma {:induction false} WalkIsEarliestFirst(rows: seq<BatchAvailability>, caps: map<BatchRef, int>, q: int)
    requires Lists(rows, caps) && Sorted(rows) && 0 <= q <= Total(caps)
    ensures IsEarliestFirst(caps, q, Walk(rows, q))
  {
    var plan := Walk(rows, q);
    WalkFollows(rows, q);
    WalkQuantity(rows, q);
    ListTotal(rows, caps);
    FollowingFits(rows, caps, plan);
    forall k, b | 0 <= k < |plan| && b in caps && ExpiresBefore(b, plan[k].batch)
      ensures Taken(plan, b) == caps[b]
    {
      FollowingExhausts(rows, caps, plan, k, b);
    }
  }

  lemma {:induction false} FollowingFits(rows: seq<BatchAvailability>, caps: map<BatchRef, int>, plan: seq<Allocation>)
    requires Lists(rows, caps) && Follows(rows, plan)
    ensures Fits(caps, plan)
  {
  }

  lemma {:induction false} FollowingExhausts(rows: seq<BatchAvailability>, caps: map<BatchRef, int>,
                                             plan: seq<Allocation>, k: nat, b: BatchRef)
    requires Lists(rows, caps) && Sorted(rows) && Follows(rows, plan) && Fits(caps, plan)
    requires k < |plan| && b in caps && ExpiresBefore(b, plan[k].batch)
    ensures Taken(plan, b) == caps[b]
  {
    TakenBounds(caps, plan, b);
    if 0 < caps[b] {
      var j :| 0 <= j < |rows| && rows[j] == BatchAvailability(b, caps[b]);
      assert j < k;
      TakenIs(plan, j);
    }
  }

  /** Whatever order the rows arrive in, the allocation is an earliest-first plan,
      never touches an expired batch, and exists exactly when the usable
      availability covers the request. */
  lemma {:induction false} FefoPlanIsEarliestFirst(rows: seq<BatchAvailability>, caps: map<BatchRef, int>, q: int,
                                                   asOf: Date)
    requires Lists(rows, caps)
    ensures SumAvailable(Usable(rows, asOf)) == Total(UsableCaps(caps, asOf))
    ensures 0 <= q <= Total(UsableCaps(caps, asOf)) ==>
              IsEarliestFirst(UsableCaps(caps, asOf), q, FefoPlan(rows, q, asOf))
    ensures forall k :: 0 <= k < |FefoPlan(rows, q, asOf)| ==>
              !ExpiredBy(FefoPlan(rows, q, asOf)[k].batch, asOf)
  {
    UsableLists(rows, caps, asOf);
    var u := Usable(rows, asOf);
    ListTotal(u, UsableCaps(caps, asOf));
    SortLists(u, UsableCaps(caps, asOf));
    SortSorts(u);
    WalkFollows(SortByExpiry(u), q);
    if 0 <= q <= Total(UsableCaps(caps, asOf)) {
      WalkIsEarliestFirst(SortByExpiry(u), UsableCaps(caps, asOf), q);
    }
    forall k | 0 <= k < |FefoPlan(rows, q, asOf)| ensures !ExpiredBy(FefoPlan(rows, q, asOf)[k].batch, asOf) {
      assert SortByExpiry(u)[k] in u;
    }
  }
}
