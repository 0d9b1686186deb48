/** backend/app/modules/accounting/service.py and api.py: posting journal entries
    and the trial balance. */
module Accounting {
  import opened Prelude
  import opened Documents
  import opened Persistence

  datatype AccountingError =
    | TooFewLines
    | Unbalanced(debit: int, credit: int)
    | ZeroTotal
    | BadLine

  datatype TrialBalanceRow = TrialBalanceRow(account: Account, debit: int, credit: int, balance: int)

  datatype TrialBalance = TrialBalance(rows: seq<TrialBalanceRow>, totalDebit: int, totalCredit: int, isBalanced: bool)

  const ACCOUNTS_BY_CODE: seq<Account> := [AP, AR, BANK, CARD, CASH, GST_INPUT, GST_OUTPUT, PURCHASES, SALES, UPI]

  datatype Side = DebitSide | CreditSide

  function Of(l: JournalLine, side: Side): int {
    match side
    case DebitSide => l.debit
    case CreditSide => l.credit
  }

  predicate InRange(d: Date, dateFrom: Option<Date>, dateTo: Option<Date>) {
    (dateFrom.Some? ==> dateFrom.value <= d) && (dateTo.Some? ==> d <= dateTo.value)
  }

  /** The entries whose date is in range. */
  function Within(journal: seq<JournalEntry>, dateFrom: Option<Date>, dateTo: Option<Date>): (r: seq<JournalEntry>)
    ensures forall e :: e in r <==> e in journal && InRange(e.date, dateFrom, dateTo)
  {
    if journal == [] then []
    else
      var n := |journal| - 1;
      Within(journal[..n], dateFrom, dateTo) + if InRange(journal[n].date, dateFrom, dateTo) then [journal[n]] else []
  }

  /** The joined line rows. */
  function Lines(journal: seq<JournalEntry>): seq<JournalLine> {
    if journal == [] then [] else Lines(journal[..|journal| - 1]) + journal[|journal| - 1].lines
  }

  /** One group of the query: the account's sum on one side. */
  function AccountSum(lines: seq<JournalLine>, account: Account, side: Side): int {
    if lines == [] then 0
    else
      var l := lines[|lines| - 1];
      AccountSum(lines[..|lines| - 1], account, side) + if l.account == account then Of(l, side) else 0
  }

  predicate HasGroup(lines: seq<JournalLine>, account: Account) {
    exists i :: 0 <= i < |lines| && lines[i].account == account
  }

  /** Rows are exactly the accounts with lines, in code order, with their sums. */
  ghost predicate IsTrialBalance(lines: seq<JournalLine>, rows: seq<TrialBalanceRow>, codes: seq<Account>) {
    if codes == [] then rows == []
    else
      var n, a := |codes| - 1, codes[|codes| - 1];
      if !HasGroup(lines, a) then IsTrialBalance(lines, rows, codes[..n])
      else
        && rows != []
        && rows[|rows| - 1] == TrialBalanceRow(a, AccountSum(lines, a, DebitSide), AccountSum(lines, a, CreditSide),
                                               AccountSum(lines, a, DebitSide) - AccountSum(lines, a, CreditSide))
        && IsTrialBalance(lines, rows[..|rows| - 1], codes[..n])
  }

  function SumOver(lines: seq<JournalLine>, codes: seq<Account>, side: Side): int {
    if codes == [] then 0
    else SumOver(lines, codes[..|codes| - 1], side) + AccountSum(lines, codes[|codes| - 1], side)
  }

  function SideTotal(lines: seq<JournalLine>, side: Side): int {
    match side
    case DebitSide => Debits(lines)
    case CreditSide => Credits(lines)
  }

  // --- Straight from the journal -----------------------------------------------------------

  /** What the entries dated in the range put on one side of an account. */
  function Turnover(journal: seq<JournalEntry>, account: Account, side: Side, dateFrom: Option<Date>,
                    dateTo: Option<Date>): int
  {
    if journal == [] then 0
    else
      var e := journal[|journal| - 1];
      var counted := (dateFrom.None? || dateFrom.value <= e.date) && (dateTo.None? || e.date <= dateTo.value);
      Turnover(journal[..|journal| - 1], account, side, dateFrom, dateTo)
      + if counted then AccountSum(e.lines, account, side) else 0
  }

  /** And on one side of all accounts. */
  function TurnoverOfAll(journal: seq<JournalEntry>, side: Side, dateFrom: Option<Date>, dateTo: Option<Date>): int {
    if journal == [] then 0
    else
      var e := journal[|journal| - 1];
      var counted := (dateFrom.None? || dateFrom.value <= e.date) && (dateTo.None? || e.date <= dateTo.value);
      TurnoverOfAll(journal[..|journal| - 1], side, dateFrom, dateTo) + if counted then SideTotal(e.lines, side) else 0
  }

  lemma {:induction false} SumConcat(a: seq<JournalLine>, b: seq<JournalLine>, account: Account, side: Side)
    ensures AccountSum(a + b, account, side) == AccountSum(a, account, side) + AccountSum(b, account, side)
  {
    if b == [] {
      assert a + b == a;
    } else {
      assert (a + b)[..|a + b| - 1] == a + b[..|b| - 1];
      SumConcat(a, b[..|b| - 1], account, side);
    }
  }

  lemma {:induction false} LinesSnoc(entries: seq<JournalEntry>, e: JournalEntry)
    ensures Lines(entries + [e]) == Lines(entries) + e.lines
  {
    assert (entries + [e])[..|entries|] == entries;
  }

  /** The joined rows of the entries in range add up to their turnover. */
  lemma {:induction false} TurnoverIs(journal: seq<JournalEntry>, account: Account, side: Side, dateFrom: Option<Date>,
                                      dateTo: Option<Date>)
    ensures var lines := Lines(Within(journal, dateFrom, dateTo));
            && AccountSum(lines, account, side) == Turnover(journal, account, side, dateFrom, dateTo)
            && SideTotal(lines, side) == TurnoverOfAll(journal, side, dateFrom, dateTo)
  {
    hide AccountSum, SideTotal, Lines;
    if journal == [] {
      NothingMoved(account, side);
    } else {
      var front, e := journal[..|journal| - 1], journal[|journal| - 1];
      TurnoverIs(front, account, side, dateFrom, dateTo);
      var within := Within(front, dateFrom, dateTo);
      if InRange(e.date, dateFrom, dateTo) {
        EntryAdds(within, e, account, side);
      } else {
        assert within + [] == within;
      }
    }
  }

  lemma {:induction false} NothingMoved(account: Account, side: Side)
    ensures Lines([]) == [] && AccountSum([], account, side) == 0 && SideTotal([], side) == 0
  {
  }

  lemma {:induction false} EntryAdds(entries: seq<JournalEntry>, e: JournalEntry, account: Account, side: Side)
    ensures var before, after := Lines(entries), Lines(entries + [e]);
            && AccountSum(after, account, side)
               == AccountSum(before, account, side) + AccountSum(e.lines, account, side)
            && SideTotal(after, side) == SideTotal(before, side) + SideTotal(e.lines, side)
  {
    LinesSnoc(entries, e);
    hide AccountSum, Lines;
    SumConcat(Lines(entries), e.lines, account, side);
    SideConcat(Lines(entries), e.lines);
  }

  /** Rows show exactly the accounts that moved, in code order, with their turnover. */
  ghost predicate RowsShow(rows: seq<TrialBalanceRow>, journal: seq<JournalEntry>, dateFrom: Option<Date>,
                           dateTo: Option<Date>)
  {
    forall k :: 0 <= k < |rows| ==>
      var r := rows[k];
      && r.debit == Turnover(journal, r.account, DebitSide, dateFrom, dateTo)
      && r.credit == Turnover(journal, r.account, CreditSide, dateFrom, dateTo)
      && r.balance == r.debit - r.credit
  }

  lemma {:induction false} RowsAreSums(lines: seq<JournalLine>, rows: seq<TrialBalanceRow>, codes: seq<Account>)
    requires IsTrialBalance(lines, rows, codes)
    ensures forall k :: 0 <= k < |rows| ==>
              && rows[k].debit == AccountSum(lines, rows[k].account, DebitSide)
              && rows[k].credit == AccountSum(lines, rows[k].account, CreditSide)
              && rows[k].balance == rows[k].debit - rows[k].credit
    ensures forall a :: a in codes && HasGroup(lines, a) ==> exists k :: 0 <= k < |rows| && rows[k].account == a
  {
    if codes != [] {
      var n, a := |codes| - 1, codes[|codes| - 1];
      if !HasGroup(lines, a) {
        RowsAreSums(lines, rows, codes[..n]);
      } else {
        RowsAreSums(lines, rows[..|rows| - 1], codes[..n]);
      }
      LastCode(lines, rows, codes);
    }
  }

  lemma {:induction false} LastCode(lines: seq<JournalLine>, rows: seq<TrialBalanceRow>, codes: seq<Account>)
    requires codes != [] && IsTrialBalance(lines, rows, codes)
    requires var n, a := |codes| - 1, codes[|codes| - 1];
             var front := if HasGroup(lines, a) then rows[..|rows| - 1] else rows;
             forall c :: c in codes[..n] && HasGroup(lines, c) ==> exists k :: 0 <= k < |front| && front[k].account == c
    ensures forall c :: c in codes && HasGroup(lines, c) ==> exists k :: 0 <= k < |rows| && rows[k].account == c
  {
    var n, a := |codes| - 1, codes[|codes| - 1];
    var front := if HasGroup(lines, a) then rows[..|rows| - 1] else rows;
    assert codes == codes[..n] + [a];
    forall c | c in codes && HasGroup(lines, c) ensures exists k :: 0 <= k < |rows| && rows[k].account == c {
      if c in codes[..n] {
        var k :| 0 <= k < |front| && front[k].account == c;
        assert rows[k].account == c;
      } else {
        assert rows[|rows| - 1].account == c;
      }
    }
  }

  class AccountingService {
    const db: Database

    constructor (db: Database)
      ensures this.db == db
    {
      this.db := db;
    }

    /** Post a balanced entry; each stored line must have exactly one positive side. */
    method Post(entryDate: Date, lines: seq<JournalLine>) returns (r: Result<(), AccountingError>)
      modifies db`journal
      ensures r.Ok? <==> EntryOk(lines)
      ensures r.Ok? <==>
              && 2 <= |lines| && Debits(lines) == Credits(lines) && Debits(lines) != 0
              && forall i :: 0 <= i < |lines| ==>
                   || (0 < lines[i].debit && lines[i].credit == 0)
                   || (lines[i].debit == 0 && 0 < lines[i].credit)
      ensures r == Err(TooFewLines) <==> |lines| < 2
      ensures 2 <= |lines| && Debits(lines) != Credits(lines) <==> r.Err? && r.error.Unbalanced?
      ensures db.journal == old(db.journal) + if r.Ok? then [JournalEntry(entryDate, lines)] else []
    {
      if |lines| < 2 {
        return Err(TooFewLines);
      }
      var totalDebit, totalCredit := Debits(lines), Credits(lines);
      if totalDebit != totalCredit {
        return Err(Unbalanced(totalDebit, totalCredit));
      }
      if totalDebit == 0 {
        return Err(ZeroTotal);
      }
      var rows := [];
      for i := 0 to |lines|
        invariant rows == lines[..i]
        invariant forall k :: 0 <= k < i ==> LineOk(lines[k])
      {
        if !LineOk(lines[i]) {
          return Err(BadLine);
        }
        rows := rows + [lines[i]];
      }
      assert lines[..|lines|] == lines;
      db.journal := db.journal + [JournalEntry(entryDate, rows)];
      r := Ok(());
    }

    method GetTrialBalance(dateFrom: Option<Date>, dateTo: Option<Date>) returns (t: TrialBalance)
      ensures var lines := Lines(Within(db.journal, dateFrom, dateTo));
              && IsTrialBalance(lines, t.rows, ACCOUNTS_BY_CODE)
              && t.totalDebit == Debits(lines) && t.totalCredit == Credits(lines)
              && (t.isBalanced <==> Debits(lines) == Credits(lines))
      ensures RowsShow(t.rows, db.journal, dateFrom, dateTo)
      ensures t.totalDebit == TurnoverOfAll(db.journal, DebitSide, dateFrom, dateTo)
      ensures t.totalCredit == TurnoverOfAll(db.journal, CreditSide, dateFrom, dateTo)
      ensures JournalOk(db.journal) ==> t.isBalanced
    {
      var lines := Lines(Within(db.journal, dateFrom, dateTo));
      var rows, totalDebit, totalCredit := [], 0, 0;
      var codes := ACCOUNTS_BY_CODE;
      for i := 0 to |codes|
        invariant IsTrialBalance(lines, rows, codes[..i])
        invariant totalDebit == SumOver(lines, codes[..i], DebitSide)
        invariant totalCredit == SumOver(lines, codes[..i], CreditSide)
      {
        var a := codes[i];
        assert codes[..i + 1][..i] == codes[..i];
        if HasGroup(lines, a) {
          var debit, credit := AccountSum(lines, a, DebitSide), AccountSum(lines, a, CreditSide);
          totalDebit, totalCredit := totalDebit + debit, totalCredit + credit;
          ghost var before := rows;
          rows := rows + [TrialBalanceRow(a, debit, credit, debit - credit)];
          assert rows[..|rows| - 1] == before;
        } else {
          NoGroup(lines, a, DebitSide);
          NoGroup(lines, a, CreditSide);
        }
      }
      assert codes[..|codes|] == codes;
      EveryAccountListed();
      GroupsAddUp(lines, ACCOUNTS_BY_CODE, DebitSide);
      GroupsAddUp(lines, ACCOUNTS_BY_CODE, CreditSide);
      if JournalOk(db.journal) {
        LinesBalance(Within(db.journal, dateFrom, dateTo));
      }
      t := TrialBalance(rows, totalDebit, totalCredit, totalDebit == totalCredit);
      ShowsTurnover(db.journal, rows, dateFrom, dateTo);
    }
  }

  lemma {:induction false} ShowsTurnover(journal: seq<JournalEntry>, rows: seq<TrialBalanceRow>, dateFrom: Option<Date>,
                                         dateTo: Option<Date>)
    requires IsTrialBalance(Lines(Within(journal, dateFrom, dateTo)), rows, ACCOUNTS_BY_CODE)
    ensures RowsShow(rows, journal, dateFrom, dateTo)
    ensures Debits(Lines(Within(journal, dateFrom, dateTo))) == TurnoverOfAll(journal, DebitSide, dateFrom, dateTo)
    ensures Credits(Lines(Within(journal, dateFrom, dateTo))) == TurnoverOfAll(journal, CreditSide, dateFrom, dateTo)
  {
    RowsAreSums(Lines(Within(journal, dateFrom, dateTo)), rows, ACCOUNTS_BY_CODE);
    hide IsTrialBalance, AccountSum, Turnover, Lines, Within;
    forall k | 0 <= k < |rows|
      ensures && rows[k].debit == Turnover(journal, rows[k].account, DebitSide, dateFrom, dateTo)
              && rows[k].credit == Turnover(journal, rows[k].account, CreditSide, dateFrom, dateTo)
    {
      TurnoverIs(journal, rows[k].account, DebitSide, dateFrom, dateTo);
      TurnoverIs(journal, rows[k].account, CreditSide, dateFrom, dateTo);
    }
    TurnoverIs(journal, CASH, DebitSide, dateFrom, dateTo);
    TurnoverIs(journal, CASH, CreditSide, dateFrom, dateTo);
  }

  lemma {:induction false} NoGroup(lines: seq<JournalLine>, a: Account, side: Side)
    requires !HasGroup(lines, a)
    ensures AccountSum(lines, a, side) == 0
  {
    if lines != [] {
      NoGroup(lines[..|lines| - 1], a, side);
    }
  }

  /** Every account, once. */
  ghost predicate ListsAll(codes: seq<Account>) {
    && (forall a: Account :: a in codes)
    && (forall i, j :: 0 <= i < j < |codes| ==> codes[i] != codes[j])
  }

  lemma {:induction false} EveryAccountListed()
    ensures ListsAll(ACCOUNTS_BY_CODE)
  {
    forall a: Account ensures a in ACCOUNTS_BY_CODE {
      var c := ACCOUNTS_BY_CODE;
      match a
      case AP => assert c[0] == a;
      case AR => assert c[1] == a;
      case BANK => assert c[2] == a;
      case CARD => assert c[3] == a;
      case CASH => assert c[4] == a;
      case GST_INPUT => assert c[5] == a;
      case GST_OUTPUT => assert c[6] == a;
      case PURCHASES => assert c[7] == a;
      case SALES => assert c[8] == a;
      case UPI => assert c[9] == a;
    }
  }

  /** The groups of the accounts add up to all the lines. */
  lemma {:induction false} GroupsAddUp(lines: seq<JournalLine>, codes: seq<Account>, side: Side)
    requires ListsAll(codes)
    ensures SumOver(lines, codes, side) == SideTotal(lines, side)
  {
    if lines == [] {
      NothingOver(codes, side);
    } else {
      var n := |lines| - 1;
      GroupsAddUp(lines[..n], codes, side);
      OneMoreLine(lines, codes, side);
    }
  }

  lemma {:induction false} NothingOver(codes: seq<Account>, side: Side)
    ensures SumOver([], codes, side) == 0
  {
    if codes != [] {
      NothingOver(codes[..|codes| - 1], side);
    }
  }

  lemma {:induction false} OneMoreLine(lines: seq<JournalLine>, codes: seq<Account>, side: Side)
    requires lines != [] && forall i, j :: 0 <= i < j < |codes| ==> codes[i] != codes[j]
    ensures var n := |lines| - 1;
            SumOver(lines, codes, side)
            == SumOver(lines[..n], codes, side) + if lines[n].account in codes then Of(lines[n], side) else 0
  {
    if codes != [] {
      var front, last := codes[..|codes| - 1], codes[|codes| - 1];
      OneMoreLine(lines, front, side);
      assert codes == front + [last];
      assert last !in front;
    }
  }

  lemma {:induction false} SideConcat(a: seq<JournalLine>, b: seq<JournalLine>)
    ensures Debits(a + b) == Debits(a) + Debits(b) && Credits(a + b) == Credits(a) + Credits(b)
  {
    if b == [] {
      assert a + b == a;
    } else {
      assert (a + b)[..|a + b| - 1] == a + b[..|b| - 1];
      SideConcat(a, b[..|b| - 1]);
    }
  }

  /** Balanced entries give balanced lines. */
  lemma {:induction false} LinesBalance(entries: seq<JournalEntry>)
    requires forall e :: e in entries ==> EntryOk(e.lines)
    ensures Debits(Lines(entries)) == Credits(Lines(entries))
  {
    if entries != [] {
      var n := |entries| - 1;
      LinesBalance(entries[..n]);
      assert entries[n] in entries;
      SideConcat(Lines(entries[..n]), entries[n].lines);
    }
  }

  /** The trial balance of any books that keep the journal rules balances, for
      every date range. */
  lemma {:induction false} TrialBalanceBalances(b: Books, dateFrom: Option<Date>, dateTo: Option<Date>)
    requires Reconciled(b)
    ensures var lines := Lines(Within(b.journal, dateFrom, dateTo)); Debits(lines) == Credits(lines)
  {
    LinesBalance(Within(b.journal, dateFrom, dateTo));
  }
}
