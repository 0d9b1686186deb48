/** Issuing q1 and then q2 leaves the same balances as issuing q1 + q2, for a
    fixed order of the rows (fefo.py:59-74 run twice by inventory/service.py:166-191). */
module FefoComposition {
  import opened Prelude
  import opened Fefo
  import opened Stock

  function Less(x: BatchAvailability, plan: seq<Allocation>): BatchAvailability {
    BatchAvailability(x.batch, x.available - Taken(plan, x.batch))
  }

  /** The rows after a plan has been issued. */
  function Drained(rows: seq<BatchAvailability>, plan: seq<Allocation>): seq<BatchAvailability> {
    if rows == [] then [] else Drained(rows[..|rows| - 1], plan) + [Less(rows[|rows| - 1], plan)]
  }

  lemma {:induction false} DrainedSnoc(rows: seq<BatchAvailability>, x: BatchAvailability, plan: seq<Allocation>)
    ensures Drained(rows + [x], plan) == Drained(rows, plan) + [Less(x, plan)]
  {
    assert (rows + [x])[..|rows|] == rows;
  }

  lemma {:induction false} DrainedCons(x: BatchAvailability, rows: seq<BatchAvailability>, plan: seq<Allocation>)
    ensures Drained([x] + rows, plan) == [Less(x, plan)] + Drained(rows, plan)
  {
    if rows == [] {
      DrainedSnoc([], x, plan);
      assert [x] + rows == [] + [x];
    } else {
      var front, y := rows[..|rows| - 1], rows[|rows| - 1];
      DrainedCons(x, front, plan);
      DrainedSnoc([x] + front, y, plan);
      assert [x] + rows == [x] + front + [y];
    }
  }

  /** Draining depends only on what the plan takes from the rows' batches. */
  lemma {:induction false} DrainedSame(rows: seq<BatchAvailability>, p: seq<Allocation>, q: seq<Allocation>)
    requires forall i :: 0 <= i < |rows| ==> Taken(p, rows[i].batch) == Taken(q, rows[i].batch)
    ensures Drained(rows, p) == Drained(rows, q)
  {
    if rows != [] {
      DrainedSame(rows[..|rows| - 1], p, q);
    }
  }

  /** Each batch gives the two issues together what it gives the single one. */
  lemma {:induction false} TakenTogether(rows: seq<BatchAvailability>, q1: nat, q2: nat, asOf: Date, b: BatchRef)
    requires Distinct(rows)
    ensures Taken(FefoPlan(rows, q1 + q2, asOf), b)
         == Taken(FefoPlan(rows, q1, asOf), b)
            + Taken(FefoPlan(Drained(rows, FefoPlan(rows, q1, asOf)), q2, asOf), b)
  {
    SortedUsable(rows, asOf);
    NextRows(rows, q1, asOf);
    WalkComposes(SortByExpiry(Usable(rows, asOf)), q1, q2, b);
  }

  lemma {:induction false} SortedUsable(rows: seq<BatchAvailability>, asOf: Date)
    requires Distinct(rows)
    ensures AllPositive(SortByExpiry(Usable(rows, asOf)))
    ensures Distinct(SortByExpiry(Usable(rows, asOf)))
  {
    var usable := Usable(rows, asOf);
    var sorted := SortByExpiry(usable);
    UsableDistinct(rows, asOf);
    SortSorts(usable);
    forall i | 0 <= i < |sorted| ensures 0 < sorted[i].available {
      assert sorted[i] in usable;
    }
  }

  /** After the first issue the second walk starts where the first one stopped. */
  lemma {:induction false} NextRows(rows: seq<BatchAvailability>, q: nat, asOf: Date)
    requires Distinct(rows)
    ensures SortByExpiry(Usable(Drained(rows, FefoPlan(rows, q, asOf)), asOf))
         == After(SortByExpiry(Usable(rows, asOf)), q)
  {
    var p := FefoPlan(rows, q, asOf);
    var usable := Usable(rows, asOf);
    SortedUsable(rows, asOf);
    OnlyUsableTaken(rows, q, asOf);
    UsableOfDrained(rows, p, asOf);
    SortOfPositive(Drained(usable, p));
    SortOfDrained(usable, p);
    PositiveOfWalk(SortByExpiry(usable), q);
  }

  /** A row the plan may not touch keeps its quantity. */
  lemma {:induction false} OnlyUsableTaken(rows: seq<BatchAvailability>, q: nat, asOf: Date)
    requires Distinct(rows)
    ensures forall i :: 0 <= i < |rows| && !IsUsable(rows[i], asOf) ==>
              Taken(FefoPlan(rows, q, asOf), rows[i].batch) == 0
  {
    var sorted := SortByExpiry(Usable(rows, asOf));
    forall i | 0 <= i < |rows| && !IsUsable(rows[i], asOf)
      ensures Taken(FefoPlan(rows, q, asOf), rows[i].batch) == 0
    {
      forall j | 0 <= j < |sorted| ensures sorted[j].batch != rows[i].batch {
        assert sorted[j] in Usable(rows, asOf);
        var k :| 0 <= k < |rows| && rows[k] == sorted[j];
        assert k != i;
      }
      WalkTakesOnly(sorted, q, rows[i].batch);
    }
  }

  lemma {:induction false} WalkTakesOnly(rows: seq<BatchAvailability>, q: int, b: BatchRef)
    requires forall j :: 0 <= j < |rows| ==> rows[j].batch != b
    ensures Taken(Walk(rows, q), b) == 0
  {
    if 0 < q && rows != [] {
      var take := Min(rows[0].available, q);
      WalkTakesOnly(rows[1..], q - take, b);
      TakenCons(Allocation(rows[0].batch, take), Walk(rows[1..], q - take), b);
    }
  }

  function Positive(rows: seq<BatchAvailability>): seq<BatchAvailability> {
    if rows == [] then []
    else Positive(rows[..|rows| - 1]) + if 0 < rows[|rows| - 1].available then [rows[|rows| - 1]] else []
  }

  lemma {:induction false} PositiveSnoc(rows: seq<BatchAvailability>, x: BatchAvailability)
    ensures Positive(rows + [x]) == Positive(rows) + if 0 < x.available then [x] else []
  {
    assert (rows + [x])[..|rows|] == rows;
  }

  lemma {:induction false} UsableSnoc(rows: seq<BatchAvailability>, x: BatchAvailability, asOf: Date)
    ensures Usable(rows + [x], asOf) == Usable(rows, asOf) + if IsUsable(x, asOf) then [x] else []
  {
    assert (rows + [x])[..|rows|] == rows;
  }

  lemma {:induction false} UsableOfDrained(rows: seq<BatchAvailability>, plan: seq<Allocation>, asOf: Date)
    requires forall i :: 0 <= i < |rows| && !IsUsable(rows[i], asOf) ==> Taken(plan, rows[i].batch) == 0
    ensures Usable(Drained(rows, plan), asOf) == Positive(Drained(Usable(rows, asOf), plan))
  {
    if rows != [] {
      hide *;
      var front, x := rows[..|rows| - 1], rows[|rows| - 1];
      assert rows == front + [x];
      UsableOfDrained(front, plan, asOf);
      DrainedSnoc(front, x, plan);
      UsableSnoc(Drained(front, plan), Less(x, plan), asOf);
      UsableSnoc(front, x, asOf);
      PositiveOfUsable(Usable(front, asOf), x, plan, asOf);
    }
  }

  lemma {:induction false} PositiveOfUsable(u: seq<BatchAvailability>, x: BatchAvailability, plan: seq<Allocation>,
                                            asOf: Date)
    requires !IsUsable(x, asOf) ==> Taken(plan, x.batch) == 0
    ensures Positive(Drained(u + if IsUsable(x, asOf) then [x] else [], plan))
         == Positive(Drained(u, plan)) + if IsUsable(Less(x, plan), asOf) then [Less(x, plan)] else []
  {
    if IsUsable(x, asOf) {
      DrainedSnoc(u, x, plan);
      PositiveSnoc(Drained(u, plan), Less(x, plan));
    } else {
      assert Less(x, plan) == x && u + [] == u;
    }
  }

  lemma {:induction false} SortOfDrained(rows: seq<BatchAvailability>, plan: seq<Allocation>)
    ensures SortByExpiry(Drained(rows, plan)) == Drained(SortByExpiry(rows), plan)
  {
    if rows != [] {
      var front, x := rows[..|rows| - 1], rows[|rows| - 1];
      SortOfDrained(front, plan);
      SortSnoc(Drained(front, plan), Less(x, plan));
      InsertOfDrained(SortByExpiry(front), x, plan);
    }
  }

  lemma {:induction false} InsertOfDrained(s: seq<BatchAvailability>, x: BatchAvailability, plan: seq<Allocation>)
    ensures InsertByExpiry(Drained(s, plan), Less(x, plan)) == Drained(InsertByExpiry(s, x), plan)
  {
    if s != [] && ExpiresBefore(x.batch, s[|s| - 1].batch) {
      var front, y := s[..|s| - 1], s[|s| - 1];
      InsertOfDrained(front, x, plan);
      InsertBehind(Drained(front, plan), Less(y, plan), Less(x, plan));
      DrainedSnoc(InsertByExpiry(front, x), y, plan);
    } else {
      DrainedSnoc(s, x, plan);
      if s != [] {
        assert Drained(s, plan)[|s| - 1] == Less(s[|s| - 1], plan) by { DrainedIs(s[..|s| - 1], plan); }
        DrainedIs(s, plan);
      }
    }
  }

  lemma {:induction false} SortOfPositive(rows: seq<BatchAvailability>)
    ensures SortByExpiry(Positive(rows)) == Positive(SortByExpiry(rows))
  {
    if rows != [] {
      var front, x := rows[..|rows| - 1], rows[|rows| - 1];
      SortOfPositive(front);
      SortSorts(front);
      InsertOfPositive(SortByExpiry(front), x);
      if 0 < x.available {
        SortSnoc(Positive(front), x);
      } else {
        assert Positive(rows) == Positive(front);
      }
    }
  }

  lemma {:induction false} SortSnoc(rows: seq<BatchAvailability>, x: BatchAvailability)
    ensures SortByExpiry(rows + [x]) == InsertByExpiry(SortByExpiry(rows), x)
  {
    assert (rows + [x])[..|rows|] == rows;
  }

  lemma {:induction false} InsertBehind(s: seq<BatchAvailability>, y: BatchAvailability, x: BatchAvailability)
    ensures ExpiresBefore(x.batch, y.batch) ==> InsertByExpiry(s + [y], x) == InsertByExpiry(s, x) + [y]
  {
    assert (s + [y])[..|s|] == s;
  }

  lemma {:induction false} InsertOfPositive(s: seq<BatchAvailability>, x: BatchAvailability)
    requires Sorted(s)
    ensures Positive(InsertByExpiry(s, x))
         == if 0 < x.available then InsertByExpiry(Positive(s), x) else Positive(s)
  {
    var n := |s| - 1;
    if s != [] && ExpiresBefore(x.batch, s[n].batch) {
      InsertOfPositive(s[..n], x);
      PositiveSnoc(InsertByExpiry(s[..n], x), s[n]);
      InsertBehind(Positive(s[..n]), s[n], x);
      if s[n].available <= 0 {
        assert Positive(s) == Positive(s[..n]);
      }
    } else {
      PositiveSnoc(s, x);
      PositiveMembers(s);
      var p := Positive(s);
      if p != [] {
        assert p[|p| - 1] in s;
        var k :| 0 <= k < |s| && s[k] == p[|p| - 1];
        assert k == n || !ExpiresBefore(s[n].batch, s[k].batch);
      }
    }
  }

  lemma {:induction false} PositiveMembers(s: seq<BatchAvailability>)
    ensures forall r :: r in Positive(s) ==> r in s
  {
    if s != [] {
      PositiveMembers(s[..|s| - 1]);
    }
  }

  /** The rows left in front of the next walk. */
  function After(rows: seq<BatchAvailability>, q: int): seq<BatchAvailability> {
    if q <= 0 || rows == [] then rows
    else if q < rows[0].available then [BatchAvailability(rows[0].batch, rows[0].available - q)] + rows[1..]
    else After(rows[1..], q - rows[0].available)
  }

  lemma {:induction false} PositiveOfAll(rows: seq<BatchAvailability>)
    requires AllPositive(rows)
    ensures Positive(rows) == rows
  {
    if rows != [] {
      PositiveOfAll(rows[..|rows| - 1]);
    }
  }

  lemma {:induction false} PositiveCons(x: BatchAvailability, rows: seq<BatchAvailability>)
    ensures Positive([x] + rows) == (if 0 < x.available then [x] else []) + Positive(rows)
  {
    if rows == [] {
      assert [x] + rows == [x];
    } else {
      var n := |rows| - 1;
      PositiveCons(x, rows[..n]);
      assert ([x] + rows)[..n + 1] == [x] + rows[..n];
    }
  }

  lemma {:induction false} DrainedHead(x: BatchAvailability, rest: seq<BatchAvailability>, q: int)
    requires 0 < q && forall i :: 0 <= i < |rest| ==> rest[i].batch != x.batch
    ensures var take := Min(x.available, q);
            Drained([x] + rest, Walk([x] + rest, q)) ==
            [BatchAvailability(x.batch, x.available - take)] + Drained(rest, Walk(rest, q - take))
  {
    var take := Min(x.available, q);
    WalkTakesOnly(rest, q - take, x.batch);
    WalkCons(x, rest, q, x.batch);
    DrainedCons(x, rest, Walk([x] + rest, q));
    forall i | 0 <= i < |rest|
      ensures Taken(Walk([x] + rest, q), rest[i].batch) == Taken(Walk(rest, q - take), rest[i].batch)
    {
      WalkCons(x, rest, q, rest[i].batch);
    }
    DrainedSame(rest, Walk([x] + rest, q), Walk(rest, q - take));
  }

  lemma {:induction false} DrainedByNothing(rows: seq<BatchAvailability>)
    ensures Drained(rows, []) == rows
  {
    if rows != [] {
      DrainedByNothing(rows[..|rows| - 1]);
    }
  }

  lemma {:induction false} PositiveOfWalk(rows: seq<BatchAvailability>, q: int)
    requires AllPositive(rows) && Distinct(rows)
    ensures Positive(Drained(rows, Walk(rows, q))) == After(rows, q)
  {
    if q <= 0 || rows == [] {
      NothingWalked(rows, q);
    } else {
      hide *;
      var x, rest := rows[0], rows[1..];
      assert rows == [x] + rest;
      RestOfRows(x, rest);
      PositiveOfWalk(rest, q - Min(x.available, q));
      PositiveOfWalkCons(x, rest, q);
    }
  }

  lemma {:induction false} RestOfRows(x: BatchAvailability, rest: seq<BatchAvailability>)
    requires AllPositive([x] + rest) && Distinct([x] + rest)
    ensures 0 < x.available && AllPositive(rest) && Distinct(rest)
    ensures forall i :: 0 <= i < |rest| ==> rest[i].batch != x.batch
  {
    var rows := [x] + rest;
    assert rows[0] == x && forall i :: 0 <= i < |rest| ==> rest[i] == rows[i + 1];
  }

  lemma {:induction false} NothingWalked(rows: seq<BatchAvailability>, q: int)
    requires (q <= 0 || rows == []) && AllPositive(rows)
    ensures Positive(Drained(rows, Walk(rows, q))) == After(rows, q)
  {
    DrainedByNothing(rows);
    PositiveOfAll(rows);
  }

  lemma {:induction false} PositiveOfWalkCons(x: BatchAvailability, rest: seq<BatchAvailability>, q: int)
    requires 0 < q && 0 < x.available && forall i :: 0 <= i < |rest| ==> rest[i].batch != x.batch
    requires var left := q - Min(x.available, q);
             Positive(Drained(rest, Walk(rest, left))) == After(rest, left)
    ensures Positive(Drained([x] + rest, Walk([x] + rest, q))) == After([x] + rest, q)
  {
    DrainedHead(x, rest, q);
    PositiveHead(x, rest, q, Drained(rest, Walk(rest, q - Min(x.available, q))));
  }

  lemma {:induction false} PositiveHead(x: BatchAvailability, rest: seq<BatchAvailability>, q: int,
                                        tail: seq<BatchAvailability>)
    requires 0 < q && 0 < x.available && Positive(tail) == After(rest, q - Min(x.available, q))
    ensures Positive([BatchAvailability(x.batch, x.available - Min(x.available, q))] + tail) == After([x] + rest, q)
  {
    PositiveCons(BatchAvailability(x.batch, x.available - Min(x.available, q)), tail);
    AfterCons(x, rest, q);
  }

  lemma {:induction false} AfterCons(x: BatchAvailability, rest: seq<BatchAvailability>, q: int)
    requires 0 < q
    ensures q < x.available ==> After([x] + rest, q) == [BatchAvailability(x.batch, x.available - q)] + rest
    ensures x.available <= q ==> After([x] + rest, q) == After(rest, q - x.available)
    ensures After(rest, 0) == rest
  {
    assert ([x] + rest)[1..] == rest;
  }

  lemma {:induction false} WalkCons(x: BatchAvailability, rest: seq<BatchAvailability>, q: int, b: BatchRef)
    requires 0 < q
    ensures var take := Min(x.available, q);
            Taken(Walk([x] + rest, q), b) == (if x.batch == b then take else 0) + Taken(Walk(rest, q - take), b)
  {
    var take := Min(x.available, q);
    assert ([x] + rest)[1..] == rest;
    TakenCons(Allocation(x.batch, take), Walk(rest, q - take), b);
  }

  lemma {:induction false} WalkStops(x: BatchAvailability, rest: seq<BatchAvailability>, q1: nat, q2: nat, b: BatchRef)
    requires 0 < q1 < x.available
    ensures var left := [BatchAvailability(x.batch, x.available - q1)] + rest;
            Taken(Walk([x] + rest, q1 + q2), b) == Taken(Walk([x] + rest, q1), b) + Taken(Walk(left, q2), b)
  {
    WalkCons(x, rest, q1 + q2, b);
    WalkCons(x, rest, q1, b);
    if 0 < q2 {
      WalkCons(BatchAvailability(x.batch, x.available - q1), rest, q2, b);
    }
  }

  lemma {:induction false} WalkGoesOn(x: BatchAvailability, rest: seq<BatchAvailability>, q1: nat, q2: nat, b: BatchRef)
    requires 0 < x.available <= q1
    requires Taken(Walk(rest, q1 - x.available + q2), b)
          == Taken(Walk(rest, q1 - x.available), b) + Taken(Walk(After(rest, q1 - x.available), q2), b)
    ensures Taken(Walk([x] + rest, q1 + q2), b)
         == Taken(Walk([x] + rest, q1), b) + Taken(Walk(After([x] + rest, q1), q2), b)
  {
    hide Taken, Walk, After;
    WalkCons(x, rest, q1 + q2, b);
    WalkCons(x, rest, q1, b);
    AfterCons(x, rest, q1);
  }

  lemma {:induction false} WalkComposesTrivially(rows: seq<BatchAvailability>, q1: nat, q2: nat, b: BatchRef)
    requires rows == [] || q1 == 0
    ensures Taken(Walk(rows, q1 + q2), b) == Taken(Walk(rows, q1), b) + Taken(Walk(After(rows, q1), q2), b)
  {
  }

  lemma {:induction false} WalkComposes(rows: seq<BatchAvailability>, q1: nat, q2: nat, b: BatchRef)
    requires AllPositive(rows)
    ensures Taken(Walk(rows, q1 + q2), b) == Taken(Walk(rows, q1), b) + Taken(Walk(After(rows, q1), q2), b)
  {
    hide Taken, Walk, After;
    if rows == [] || q1 == 0 {
      WalkComposesTrivially(rows, q1, q2, b);
    } else {
      var x, rest := rows[0], rows[1..];
      assert rows == [x] + rest;
      if q1 < x.available {
        WalkStops(x, rest, q1, q2, b);
        AfterCons(x, rest, q1);
      } else {
        WalkComposes(rest, q1 - x.available, q2, b);
        WalkGoesOn(x, rest, q1, q2, b);
      }
    }
  }

  // --- Balances ----------------------------------------------------------------------------

  lemma {:induction false} DrainedIs(rows: seq<BatchAvailability>, plan: seq<Allocation>)
    ensures |Drained(rows, plan)| == |rows|
    ensures forall i :: 0 <= i < |rows| ==> Drained(rows, plan)[i] == Less(rows[i], plan)
  {
    if rows != [] {
      DrainedIs(rows[..|rows| - 1], plan);
    }
  }

  lemma {:induction false} PositiveKeeps(rows: seq<BatchAvailability>)
    ensures forall r :: r in Positive(rows) <==> r in rows && 0 < r.available
    ensures Distinct(rows) ==> Distinct(Positive(rows))
  {
    if rows != [] {
      var front, last := rows[..|rows| - 1], rows[|rows| - 1];
      PositiveKeeps(front);
      assert rows == front + [last];
      if Distinct(rows) {
        forall i | 0 <= i < |Positive(front)| ensures Positive(front)[i].batch != last.batch {
          assert Positive(front)[i] in front;
        }
      }
    }
  }

  lemma {:induction false} UsableOfPositive(rows: seq<BatchAvailability>, asOf: Date)
    ensures Usable(Positive(rows), asOf) == Usable(rows, asOf)
  {
    if rows != [] {
      var front, last := rows[..|rows| - 1], rows[|rows| - 1];
      UsableOfPositive(front, asOf);
      UsableSnoc(Positive(front), last, asOf);
      assert Positive(front) + [] == Positive(front);
    }
  }

  /** What the table lists after an issue, in the order it listed before. */
  function Left(rows: seq<BatchAvailability>, plan: seq<Allocation>): seq<BatchAvailability> {
    Positive(Drained(rows, plan))
  }

  lemma {:induction false} LeftOf(rows: seq<BatchAvailability>, plan: seq<Allocation>, caps: map<BatchRef, int>,
                                  after: map<BatchRef, int>)
    requires Lists(rows, caps) && after.Keys == caps.Keys
    requires forall b :: b in caps ==> 0 <= after[b] == caps[b] - Taken(plan, b)
    requires forall b :: b in caps ==> 0 <= Taken(plan, b)
    ensures Lists(Left(rows, plan), after)
  {
    hide Taken, Drained, Positive;
    var left := Left(rows, plan);
    DrainedIs(rows, plan);
    PositiveKeeps(Drained(rows, plan));
    forall i | 0 <= i < |left| ensures left[i].batch in after && 0 < left[i].available == after[left[i].batch] {
      assert left[i] in Drained(rows, plan);
    }
    forall b | b in after && 0 < after[b] ensures BatchAvailability(b, after[b]) in left {
      assert BatchAvailability(b, caps[b]) in rows;
      var k :| 0 <= k < |rows| && rows[k] == BatchAvailability(b, caps[b]);
      assert Drained(rows, plan)[k] == BatchAvailability(b, after[b]);
    }
  }

  lemma {:induction false} PlanFits(shelf: Shelf, rows: seq<BatchAvailability>, q: nat, asOf: Date)
    requires Lists(rows, AvailableCaps(shelf)) && q <= UsableTotal(shelf, asOf)
    ensures forall b :: b in shelf ==> 0 <= Taken(FefoPlan(rows, q, asOf), b) <= AvailableCaps(shelf)[b]
  {
    var plan := FefoPlan(rows, q, asOf);
    FefoPlanIsEarliestFirst(rows, AvailableCaps(shelf), q, asOf);
    hide FefoPlan, Lists, Taken;
    UsablePlan(shelf, asOf, q, plan);
  }

  lemma {:induction false} LeftLists(shelf: Shelf, rows: seq<BatchAvailability>, q: nat, asOf: Date)
    requires Lists(rows, AvailableCaps(shelf)) && q <= UsableTotal(shelf, asOf)
    ensures var plan := FefoPlan(rows, q, asOf);
            Lists(Left(rows, plan), AvailableCaps(Issued(shelf, plan)))
  {
    hide FefoPlan, Left, Lists, Taken, UsableTotal;
    var plan := FefoPlan(rows, q, asOf);
    PlanFits(shelf, rows, q, asOf);
    LeftOf(rows, plan, AvailableCaps(shelf), AvailableCaps(Issued(shelf, plan)));
  }

  lemma {:induction false} IssuedTwice(shelf: Shelf, first: seq<Allocation>, second: seq<Allocation>,
                                       both: seq<Allocation>)
    requires forall b :: b in shelf ==> Taken(both, b) == Taken(first, b) + Taken(second, b)
    ensures Issued(Issued(shelf, first), second) == Issued(shelf, both)
  {
    hide Taken;
  }

  /** Issuing q1 and then q2 leaves every balance as issuing q1 + q2 at once does, for
      one order of the rows. */
  lemma {:induction false} IssueComposes(shelf: Shelf, rows: seq<BatchAvailability>, q1: nat, q2: nat, asOf: Date)
    requires Lists(rows, AvailableCaps(shelf)) && q1 + q2 <= UsableTotal(shelf, asOf)
    ensures var first := FefoPlan(rows, q1, asOf);
            var second := FefoPlan(Left(rows, first), q2, asOf);
            && Lists(Left(rows, first), AvailableCaps(Issued(shelf, first)))
            && Issued(Issued(shelf, first), second) == Issued(shelf, FefoPlan(rows, q1 + q2, asOf))
  {
    var first, both := FefoPlan(rows, q1, asOf), FefoPlan(rows, q1 + q2, asOf);
    var second := FefoPlan(Left(rows, first), q2, asOf);
    LeftLists(shelf, rows, q1, asOf);
    UsableOfPositive(Drained(rows, first), asOf);
    assert second == FefoPlan(Drained(rows, first), q2, asOf);
    hide *;
    forall b | b in shelf ensures Taken(both, b) == Taken(first, b) + Taken(second, b) {
      TakenTogether(rows, q1, q2, asOf, b) by {
        ListsDistinct(rows, AvailableCaps(shelf));
      }
    }
    IssuedTwice(shelf, first, second, both);
  }

  lemma {:induction false} ListsDistinct(rows: seq<BatchAvailability>, caps: map<BatchRef, int>)
    requires Lists(rows, caps)
    ensures Distinct(rows)
  {
  }
}
