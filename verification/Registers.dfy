/** The numbers of one table of documents: gapless per sequence, and unique on
    paper, since the tables refuse a number already printed (uq_sales_invoice_no,
    uq_sales_order_no, uq_repair_job_number). */
module Registers {
  import opened Prelude
  import opened Stock
  import opened Documents
  import opened Numbering

  /** A stored document's sequence and number. */
  datatype NumberedRow = NumberedRow(scope: Scope, number: DocumentNumber)

  type Sequences = map<Scope, NumberSequence>

  /** No stored document prints `n`. */
  predicate Free(rows: seq<NumberedRow>, n: DocumentNumber) {
    forall k :: 0 <= k < |rows| ==> Printed(rows[k].number) != Printed(n)
  }

  /** The next document of the scope can be stored: its branch exists and its number
      is not printed on another document. */
  predicate Issuable(rows: seq<NumberedRow>, numbers: Sequences, codes: map<Id, string>, scope: Scope) {
    KnownBranch(scope.branch, codes) && Free(rows, NextOf(numbers, codes, scope))
  }

  /** Another branch whose code agrees on its first eleven characters is ahead. */
  predicate Overtaken(numbers: Sequences, codes: map<Id, string>, scope: Scope) {
    && scope.branch.Some? && scope.branch.value in codes
    && exists y :: y in codes && IsAhead(numbers, codes, scope, y)
  }

  predicate IsAhead(numbers: Sequences, codes: map<Id, string>, scope: Scope, y: Id)
    requires scope.branch.Some? && scope.branch.value in codes && y in codes
  {
    && y != scope.branch.value && Cut(codes[y]) == Cut(codes[scope.branch.value])
    && NextValue(numbers, scope) < NextValue(numbers, Scope(scope.document, Some(y)))
  }

  /** Two branches that print the same prefix. */
  predicate PrintAlike(codes: map<Id, string>, x: Option<Id>, y: Option<Id>) {
    && x.Some? && y.Some? && x.value in codes && y.value in codes
    && Cut(codes[x.value]) == Cut(codes[y.value])
  }

  /** No two branches agree on their first eleven characters. */
  ghost predicate DistinctCodes(codes: map<Id, string>) {
    forall x, y :: x in codes && y in codes && x != y ==> Cut(codes[x]) != Cut(codes[y])
  }

  /** The values a scope has issued, in order. */
  function ValuesOf(rows: seq<NumberedRow>, scope: Scope): seq<nat> {
    if rows == [] then []
    else
      var last := rows[|rows| - 1];
      ValuesOf(rows[..|rows| - 1], scope) + if last.scope == scope then [last.number.value] else []
  }

  /** Sequence rows belong to existing branches and carry their prefix. */
  ghost predicate SequencesOk(numbers: Sequences, codes: map<Id, string>) {
    forall scope: Scope :: scope in numbers ==>
      1 <= numbers[scope].nextValue && KnownBranch(scope.branch, codes) && numbers[scope].prefix
          == PrefixFor(scope, codes)
  }

  ghost predicate RowsOk(rows: seq<NumberedRow>, documents: set<DocumentType>, codes: map<Id, string>) {
    forall k :: 0 <= k < |rows| ==>
      && rows[k].scope.document in documents && KnownBranch(rows[k].scope.branch, codes)
      && rows[k].number.prefix == PrefixFor(rows[k].scope, codes)
  }

  ghost predicate Gapless(rows: seq<NumberedRow>, documents: set<DocumentType>, numbers: Sequences) {
    forall scope: Scope :: scope.document in documents ==> ValuesOf(rows, scope) == From(1, NextValue(numbers, scope))
  }

  ghost predicate DistinctOnPaper(rows: seq<NumberedRow>) {
    forall j, k :: 0 <= j < k < |rows| ==> Printed(rows[j].number) != Printed(rows[k].number)
  }

  /** A table whose numbers come from sequences of these document types. */
  ghost predicate RegisterOk(rows: seq<NumberedRow>, documents: set<DocumentType>, numbers: Sequences,
                             codes: map<Id, string>) {
    RowsOk(rows, documents, codes) && Gapless(rows, documents, numbers) && DistinctOnPaper(rows)
  }

  lemma {:induction false} ValuesSnoc(rows: seq<NumberedRow>, i: NumberedRow, scope: Scope)
    ensures ValuesOf(rows + [i], scope) == ValuesOf(rows, scope) + if i.scope == scope then [i.number.value] else []
  {
    assert (rows + [i])[..|rows|] == rows;
  }

  lemma {:induction false} NextIs(numbers: Sequences, codes: map<Id, string>, scope: Scope)
    requires SequencesOk(numbers, codes)
    ensures NextOf(numbers, codes, scope) == DocumentNumber(PrefixFor(scope, codes), NextValue(numbers, scope))
    ensures 1 <= NextValue(numbers, scope)
  {
  }

  lemma {:induction false} AdvancedOk(numbers: Sequences, codes: map<Id, string>, scope: Scope)
    requires SequencesOk(numbers, codes) && KnownBranch(scope.branch, codes)
    ensures SequencesOk(Advanced(numbers, codes, scope), codes)
    ensures forall at :: NextValue(Advanced(numbers, codes, scope), at)
                      == NextValue(numbers, at) + if at == scope then 1 else 0
  {
    NextIs(numbers, codes, scope);
  }

  /** Storing the next document of a scope, when its number is free. */
  lemma {:induction false} RegisterIssues(rows: seq<NumberedRow>, documents: set<DocumentType>, numbers: Sequences,
                                          codes: map<Id, string>, scope: Scope)
    requires RegisterOk(rows, documents, numbers, codes) && SequencesOk(numbers, codes)
    requires scope.document in documents && Issuable(rows, numbers, codes, scope)
    ensures RegisterOk(rows + [NumberedRow(scope, NextOf(numbers, codes, scope))], documents,
                       Advanced(numbers, codes, scope), codes)
  {
    var i := NumberedRow(scope, NextOf(numbers, codes, scope));
    NextIs(numbers, codes, scope);
    hide Printed, PrefixFor, NextOf, Advanced, ValuesOf, Gapless, SequencesOk;
    GaplessIssues(rows, documents, numbers, codes, scope);
    StillDistinct(rows, i);
    forall k | 0 <= k < |rows + [i]|
      ensures var at := (rows + [i])[k];
              && at.scope.document in documents && KnownBranch(at.scope.branch, codes)
              && at.number.prefix == PrefixFor(at.scope, codes)
    {
      assert k < |rows| ==> (rows + [i])[k] == rows[k];
    }
  }

  lemma {:induction false} GaplessIssues(rows: seq<NumberedRow>, documents: set<DocumentType>, numbers: Sequences,
                                         codes: map<Id, string>, scope: Scope)
    requires Gapless(rows, documents, numbers) && SequencesOk(numbers, codes) && KnownBranch(scope.branch, codes)
    ensures Gapless(rows + [NumberedRow(scope, NextOf(numbers, codes, scope))], documents,
                    Advanced(numbers, codes, scope))
  {
    var i := NumberedRow(scope, NextOf(numbers, codes, scope));
    var after := Advanced(numbers, codes, scope);
    NextIs(numbers, codes, scope);
    AdvancedOk(numbers, codes, scope);
    hide PrefixFor, NextOf, Advanced, ValuesOf, SequencesOk;
    forall at: Scope | at.document in documents ensures ValuesOf(rows + [i], at) == From(1, NextValue(after, at)) {
      ValuesSnoc(rows, i, at);
      assert ValuesOf(rows, at) == From(1, NextValue(numbers, at));
    }
  }

  lemma {:induction false} StillDistinct(rows: seq<NumberedRow>, i: NumberedRow)
    requires DistinctOnPaper(rows) && Free(rows, i.number)
    ensures DistinctOnPaper(rows + [i])
  {
    hide Printed;
  }

  /** Issuing a number for another table. */
  lemma {:induction false} RegisterKept(rows: seq<NumberedRow>, documents: set<DocumentType>, numbers: Sequences,
                                        codes: map<Id, string>, scope: Scope)
    requires RegisterOk(rows, documents, numbers, codes) && SequencesOk(numbers, codes)
    requires scope.document !in documents && KnownBranch(scope.branch, codes)
    ensures RegisterOk(rows, documents, Advanced(numbers, codes, scope), codes)
  {
    AdvancedOk(numbers, codes, scope);
    hide Printed, PrefixFor, Advanced, ValuesOf;
    forall at: Scope | at.document in documents
      ensures ValuesOf(rows, at) == From(1, NextValue(Advanced(numbers, codes, scope), at))
    {
      assert ValuesOf(rows, at) == From(1, NextValue(numbers, at));
    }
  }

  /** A new branch changes no number given out so far. */
  lemma {:induction false} BranchKept(rows: seq<NumberedRow>, documents: set<DocumentType>, numbers: Sequences,
                                      codes: map<Id, string>, branch: Id, code: string)
    requires RegisterOk(rows, documents, numbers, codes) && SequencesOk(numbers, codes) && branch !in codes
    ensures RegisterOk(rows, documents, numbers, codes[branch := code]) && SequencesOk(numbers, codes[branch := code])
  {
    var more := codes[branch := code];
    assert forall scope: Scope :: KnownBranch(scope.branch, codes) ==>
        KnownBranch(scope.branch, more) && PrefixFor(scope, more) == PrefixFor(scope, codes);
  }

  // --- When a number is refused -----------------------------------------------------------

  lemma {:induction false} ValueListed(rows: seq<NumberedRow>, k: nat)
    requires k < |rows|
    ensures rows[k].number.value in ValuesOf(rows, rows[k].scope)
  {
    if k < |rows| - 1 {
      ValueListed(rows[..|rows| - 1], k);
    }
  }

  lemma {:induction false} ListedValue(rows: seq<NumberedRow>, scope: Scope, v: nat) returns (k: nat)
    requires v in ValuesOf(rows, scope)
    ensures k < |rows| && rows[k].scope == scope && rows[k].number.value == v
  {
    var last := |rows| - 1;
    if rows[last].scope == scope && rows[last].number.value == v {
      k := last;
    } else {
      k := ListedValue(rows[..last], scope, v);
    }
  }

  /** What a stored document's number is. */
  lemma {:induction false} StoredNumber(rows: seq<NumberedRow>, documents: set<DocumentType>, numbers: Sequences,
                                        codes: map<Id, string>, k: nat)
    requires RegisterOk(rows, documents, numbers, codes) && k < |rows|
    ensures rows[k].scope.document in documents && KnownBranch(rows[k].scope.branch, codes)
    ensures Printed(rows[k].number) == Format(PrefixFor(rows[k].scope, codes), rows[k].number.value)
    ensures 1 <= rows[k].number.value < NextValue(numbers, rows[k].scope)
  {
    ValueListed(rows, k);
  }

  /** The next number of an existing branch is refused if and only if another branch,
      whose code agrees on its first eleven characters, is ahead. */
  lemma {:induction false} RefusedExactly(rows: seq<NumberedRow>, documents: set<DocumentType>, numbers: Sequences,
                                          codes: map<Id, string>, scope: Scope)
    requires RegisterOk(rows, documents, numbers, codes) && SequencesOk(numbers, codes)
    requires scope.document in documents && KnownBranch(scope.branch, codes)
    ensures Issuable(rows, numbers, codes, scope) <==> !Overtaken(numbers, codes, scope)
  {
    var n := NextOf(numbers, codes, scope);
    NextIs(numbers, codes, scope);
    if Overtaken(numbers, codes, scope) {
      var y :| y in codes && IsAhead(numbers, codes, scope, y);
      AheadTakes(rows, documents, numbers, codes, scope, y);
    } else {
      forall k | 0 <= k < |rows| ensures Printed(rows[k].number) != Printed(n) {
        StoredDiffers(rows, documents, numbers, codes, scope, k);
      }
    }
  }

  lemma {:induction false} AheadTakes(rows: seq<NumberedRow>, documents: set<DocumentType>, numbers: Sequences,
                                      codes: map<Id, string>, scope: Scope, y: Id)
    requires RegisterOk(rows, documents, numbers, codes) && SequencesOk(numbers, codes)
    requires scope.document in documents && scope.branch.Some? && scope.branch.value in codes && y in codes
    requires IsAhead(numbers, codes, scope, y)
    ensures !Free(rows, NextOf(numbers, codes, scope))
  {
    var other, v := Scope(scope.document, Some(y)), NextValue(numbers, scope);
    NextIs(numbers, codes, scope);
    assert ValuesOf(rows, other) == From(1, NextValue(numbers, other));
    assert ValuesOf(rows, other)[v - 1] == v;
    var k := ListedValue(rows, other, v);
    StoredNumber(rows, documents, numbers, codes, k);
    hide Format, PrefixFor, RegisterOk, SequencesOk, ValuesOf;
    PrintedNumbersCollide(codes, other, v, scope, v);
  }

  lemma {:induction false} StoredDiffers(rows: seq<NumberedRow>, documents: set<DocumentType>, numbers: Sequences,
                                         codes: map<Id, string>, scope: Scope, k: nat)
    requires RegisterOk(rows, documents, numbers, codes) && SequencesOk(numbers, codes)
    requires scope.document in documents && KnownBranch(scope.branch, codes) && k < |rows|
    requires !Overtaken(numbers, codes, scope)
    ensures Printed(rows[k].number) != Printed(NextOf(numbers, codes, scope))
  {
    NextIs(numbers, codes, scope);
    StoredNumber(rows, documents, numbers, codes, k);
    var at := rows[k].scope;
    hide Format, PrefixFor, RegisterOk, SequencesOk;
    PrintedNumbersCollide(codes, at, rows[k].number.value, scope, NextValue(numbers, scope));
    if at.document == scope.document && SameOnPaper(at.branch, scope.branch, codes) && at.branch != scope.branch {
      assert !IsAhead(numbers, codes, scope, at.branch.value);
    }
  }

  /** With codes that differ early, no number is ever refused. */
  lemma {:induction false} DistinctCodesNeverRefused(numbers: Sequences, codes: map<Id, string>, scope: Scope)
    requires DistinctCodes(codes)
    ensures !Overtaken(numbers, codes, scope)
  {
  }

  /** Sequences that only move at scopes not overtaken, under codes that only grow. */
  ghost predicate Proceeds(numbers: Sequences, codes: map<Id, string>, later: Sequences, more: map<Id, string>) {
    && (forall b :: b in codes ==> b in more && more[b] == codes[b])
    && (forall scope: Scope :: NextValue(numbers, scope) <= NextValue(later, scope))
    && (forall scope: Scope :: Overtaken(numbers, codes, scope) ==>
          NextValue(later, scope) == NextValue(numbers, scope))
  }

  /** A branch that was overtaken stays overtaken. */
  lemma {:induction false} OvertakenStays(numbers: Sequences, codes: map<Id, string>, later: Sequences,
                                          more: map<Id, string>, scope: Scope)
    requires Proceeds(numbers, codes, later, more) && Overtaken(numbers, codes, scope)
    ensures Overtaken(later, more, scope)
  {
    var y :| y in codes && IsAhead(numbers, codes, scope, y);
    assert IsAhead(later, more, scope, y);
  }

  /** Of two branches that print alike, one that issues overtakes the other, unless the
      other was ahead. */
  lemma {:induction false} IssueOvertakes(numbers: Sequences, codes: map<Id, string>, d: DocumentType, x: Option<Id>,
                                          y: Option<Id>)
    requires SequencesOk(numbers, codes) && x != y && PrintAlike(codes, x, y)
    requires !Overtaken(numbers, codes, Scope(d, x))
    ensures Overtaken(Advanced(numbers, codes, Scope(d, x)), codes, Scope(d, y))
  {
    AdvancedOk(numbers, codes, Scope(d, x));
    assert !IsAhead(numbers, codes, Scope(d, x), y.value);
    assert IsAhead(Advanced(numbers, codes, Scope(d, x)), codes, Scope(d, y), x.value);
  }

  /** And of two that do not, neither holds the other back. */
  lemma {:induction false} IssueLeavesApart(numbers: Sequences, codes: map<Id, string>, d: DocumentType, x: Option<Id>,
                                            y: Option<Id>)
    requires SequencesOk(numbers, codes) && KnownBranch(x, codes) && (x == y || !PrintAlike(codes, x, y))
    requires !Overtaken(numbers, codes, Scope(d, y))
    ensures !Overtaken(Advanced(numbers, codes, Scope(d, x)), codes, Scope(d, y))
  {
    AdvancedOk(numbers, codes, Scope(d, x));
  }

  lemma {:induction false} IssueProceeds(numbers: Sequences, codes: map<Id, string>, scope: Scope)
    requires SequencesOk(numbers, codes) && KnownBranch(scope.branch, codes) && !Overtaken(numbers, codes, scope)
    ensures Proceeds(numbers, codes, Advanced(numbers, codes, scope), codes)
  {
    AdvancedOk(numbers, codes, scope);
  }

  // --- The tables ----------------------------------------------------------------------------

  function InvoiceRows(invoices: seq<Invoice>): (rows: seq<NumberedRow>)
    ensures |rows| == |invoices|
    ensures forall i :: 0 <= i < |rows| ==>
              rows[i] == NumberedRow(Scope(InvoiceDocument, invoices[i].branch), invoices[i].number)
  {
    seq(|invoices|, i requires 0 <= i < |invoices| =>
      NumberedRow(Scope(InvoiceDocument, invoices[i].branch), invoices[i].number))
  }

  /** Quotations and orders share one table; neither ever becomes the other. */
  function OrderScope(o: SalesOrder): Scope {
    Scope(if o.status == Quotation then QuotationDocument else OrderDocument, o.branch)
  }

  function OrderRows(orders: seq<SalesOrder>): (rows: seq<NumberedRow>)
    ensures |rows| == |orders|
    ensures forall i :: 0 <= i < |rows| ==> rows[i] == NumberedRow(OrderScope(orders[i]), orders[i].number)
  {
    seq(|orders|, i requires 0 <= i < |orders| => NumberedRow(OrderScope(orders[i]), orders[i].number))
  }

  function JobRows(jobs: seq<RepairJob>): (rows: seq<NumberedRow>)
    ensures |rows| == |jobs|
    ensures forall i :: 0 <= i < |rows| ==>
              rows[i] == NumberedRow(Scope(RepairDocument, jobs[i].branch), jobs[i].number)
  {
    seq(|jobs|, i requires 0 <= i < |jobs| => NumberedRow(Scope(RepairDocument, jobs[i].branch), jobs[i].number))
  }

  lemma {:induction false} InvoiceRowsSnoc(invoices: seq<Invoice>, inv: Invoice)
    ensures InvoiceRows(invoices + [inv])
         == InvoiceRows(invoices) + [NumberedRow(Scope(InvoiceDocument, inv.branch), inv.number)]
  {
  }

  lemma {:induction false} OrderRowsSnoc(orders: seq<SalesOrder>, o: SalesOrder)
    ensures OrderRows(orders + [o]) == OrderRows(orders) + [NumberedRow(OrderScope(o), o.number)]
  {
  }

  lemma {:induction false} OrderRowsSame(orders: seq<SalesOrder>, id: nat, o: SalesOrder)
    requires id < |orders| && OrderScope(o) == OrderScope(orders[id]) && o.number == orders[id].number
    ensures OrderRows(orders[id := o]) == OrderRows(orders)
  {
  }

  lemma {:induction false} JobRowsSnoc(jobs: seq<RepairJob>, j: RepairJob)
    ensures JobRows(jobs + [j]) == JobRows(jobs) + [NumberedRow(Scope(RepairDocument, j.branch), j.number)]
  {
  }

  /** The table that holds documents of this type. */
  function Rows(b: Books, d: DocumentType): seq<NumberedRow> {
    match d
    case InvoiceDocument => InvoiceRows(b.invoices)
    case OrderDocument | QuotationDocument => OrderRows(b.orders)
    case RepairDocument => JobRows(b.jobs)
  }

  function Sharing(d: DocumentType): set<DocumentType> {
    match d
    case InvoiceDocument => {InvoiceDocument}
    case OrderDocument | QuotationDocument => {OrderDocument, QuotationDocument}
    case RepairDocument => {RepairDocument}
  }

  predicate CanIssue(b: Books, scope: Scope) {
    Issuable(Rows(b, scope.document), b.numbers, b.codes, scope)
  }

  /** In every table numbers are gapless per sequence and distinct on paper. */
  ghost predicate NumbersOk(b: Books) {
    SequencesOk(b.numbers, b.codes) && forall d :: RegisterOk(Rows(b, d), Sharing(d), b.numbers, b.codes)
  }

  /** One document stored with its sequence's next number. */
  lemma {:induction false} NumbersIssue(b: Books, after: Books, scope: Scope)
    requires NumbersOk(b) && CanIssue(b, scope)
    requires after.numbers == Advanced(b.numbers, b.codes, scope) && after.codes == b.codes
    requires forall d :: if scope.document in Sharing(d)
                         then Rows(after, d) == Rows(b, d) + [NumberedRow(scope, NextOf(b.numbers, b.codes, scope))]
                         else Rows(after, d) == Rows(b, d)
    ensures NumbersOk(after)
  {
    hide RegisterOk, SequencesOk, Advanced, NextOf, Rows, Sharing, Issuable;
    IssuableIsKnown(Rows(b, scope.document), b.numbers, b.codes, scope);
    AdvancedOk(b.numbers, b.codes, scope);
    forall d ensures RegisterOk(Rows(after, d), Sharing(d), after.numbers, after.codes) {
      assert RegisterOk(Rows(b, d), Sharing(d), b.numbers, b.codes);
      SharedRows(b, scope.document, d);
      if scope.document in Sharing(d) {
        RegisterIssues(Rows(b, d), Sharing(d), b.numbers, b.codes, scope);
      } else {
        RegisterKept(Rows(b, d), Sharing(d), b.numbers, b.codes, scope);
      }
    }
  }

  lemma {:induction false} SharedRows(b: Books, d: DocumentType, e: DocumentType)
    ensures d in Sharing(e) ==> Rows(b, d) == Rows(b, e)
  {
  }

  lemma {:induction false} IssuableIsKnown(rows: seq<NumberedRow>, numbers: Sequences, codes: map<Id, string>,
                                           scope: Scope)
    requires Issuable(rows, numbers, codes, scope)
    ensures KnownBranch(scope.branch, codes)
  {
  }

  lemma {:induction false} NumbersKept(b: Books, after: Books)
    requires NumbersOk(b) && after.numbers == b.numbers && after.codes == b.codes
    requires forall d :: Rows(after, d) == Rows(b, d)
    ensures NumbersOk(after)
  {
    hide Rows, Sharing, RegisterOk, SequencesOk;
    forall d ensures RegisterOk(Rows(after, d), Sharing(d), after.numbers, after.codes) {
      assert RegisterOk(Rows(b, d), Sharing(d), b.numbers, b.codes);
    }
  }

  lemma {:induction false} NumbersKeptByBranch(b: Books, after: Books, branch: Id, code: string)
    requires NumbersOk(b) && branch !in b.codes
    requires after == b.(codes := b.codes[branch := code])
    ensures NumbersOk(after)
  {
    hide Sharing, RegisterOk, SequencesOk;
    forall d ensures RegisterOk(Rows(after, d), Sharing(d), after.numbers, after.codes) {
      assert RegisterOk(Rows(b, d), Sharing(d), b.numbers, b.codes);
      BranchKept(Rows(b, d), Sharing(d), b.numbers, b.codes, branch, code);
    }
    assert RegisterOk(Rows(b, InvoiceDocument), Sharing(InvoiceDocument), b.numbers, b.codes);
    BranchKept(Rows(b, InvoiceDocument), Sharing(InvoiceDocument), b.numbers, b.codes, branch, code);
  }

  lemma {:induction false} OrderBranchKnown(b: Books, id: nat)
    requires NumbersOk(b) && id < |b.orders|
    ensures KnownBranch(b.orders[id].branch, b.codes)
  {
    assert RegisterOk(Rows(b, OrderDocument), Sharing(OrderDocument), b.numbers, b.codes);
    assert OrderRows(b.orders)[id].scope.branch == b.orders[id].branch;
  }

  /** Whether the next document of a scope can be stored. */
  lemma {:induction false} IssuableExactly(b: Books, scope: Scope)
    requires NumbersOk(b)
    ensures CanIssue(b, scope) <==> KnownBranch(scope.branch, b.codes) && !Overtaken(b.numbers, b.codes, scope)
  {
    if KnownBranch(scope.branch, b.codes) {
      assert RegisterOk(Rows(b, scope.document), Sharing(scope.document), b.numbers, b.codes);
      RefusedExactly(Rows(b, scope.document), Sharing(scope.document), b.numbers, b.codes, scope);
    }
  }
}
