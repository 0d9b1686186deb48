/** What each journal puts on each account, by how the money was paid
    (accounting/service.py:37-43, sales/service.py:370-384,
    sales/wholesale_service.py:290-300, collections/service.py:108-122). */
module JournalEffects {
  import opened Prelude
  import opened Stock
  import opened Documents
  import opened Bookkeeping

  /** Which payments a money account takes: card and UPI have their own, transfers and
      cheques go to the bank, everything else is cash. */
  function ModesInto(account: Account): set<PaymentMethod> {
    match account
    case CARD => {Card}
    case UPI => {Upi}
    case BANK => {BankTransfer, Cheque}
    case CASH => {Cash, CreditMethod, Advance}
    case AR | AP | SALES | GST_OUTPUT | GST_INPUT | PURCHASES => {}
  }

  lemma {:induction false} TenderGoesInto(mode: PaymentMethod, account: Account)
    ensures TenderAccount(mode) == account <==> mode in ModesInto(account)
  {
  }

  /** What was paid by these methods. */
  function ReceivedBy(payments: seq<Payment>, modes: set<PaymentMethod>): int {
    if payments == [] then 0
    else
      var last := payments[|payments| - 1];
      ReceivedBy(payments[..|payments| - 1], modes) + if last.mode in modes then last.amount else 0
  }

  function TenderedBy(tenders: seq<Tender>, modes: set<PaymentMethod>): int {
    if tenders == [] then 0
    else
      var last := tenders[|tenders| - 1];
      TenderedBy(tenders[..|tenders| - 1], modes) + if last.mode in modes then last.amount else 0
  }

  /** What a sale's journal puts on an account. */
  function SaleEffect(inv: Invoice, tenders: seq<Tender>, account: Account): int {
    match account
    case SALES => -inv.subtotal
    case GST_OUTPUT => -inv.taxTotal
    case AR => Outstanding(inv)
    case CASH | BANK | UPI | CARD => TenderedBy(tenders, ModesInto(account))
    case AP | GST_INPUT | PURCHASES => 0
  }

  lemma {:induction false} BalanceConcat(a: seq<JournalLine>, b: seq<JournalLine>, account: Account)
    ensures LineBalance(a + b, account) == LineBalance(a, account) + LineBalance(b, account)
    decreases |b|
  {
    if b == [] {
      assert a + b == a;
    } else {
      assert (a + b)[..|a + b| - 1] == a + b[..|b| - 1];
      BalanceConcat(a, b[..|b| - 1], account);
    }
  }

  lemma {:induction false} OneLineBalance(l: JournalLine, account: Account)
    ensures LineBalance([l], account) == if l.account == account then l.debit - l.credit else 0
    ensures LineBalance([], account) == 0
  {
    assert [l][..0] == [];
  }

  lemma {:induction false} TenderLinesBalance(tenders: seq<Tender>, account: Account)
    ensures LineBalance(TenderLines(tenders), account) == TenderedBy(tenders, ModesInto(account))
  {
    if tenders != [] {
      var n := |tenders| - 1;
      TenderLinesBalance(tenders[..n], account);
      var l := JournalLine(TenderAccount(tenders[n].mode), tenders[n].amount, 0);
      TenderGoesInto(tenders[n].mode, account);
      BalanceConcat(TenderLines(tenders[..n]), [l], account);
      OneLineBalance(l, account);
    }
  }

  lemma {:induction false} NoTendersElsewhere(tenders: seq<Tender>, account: Account)
    requires ModesInto(account) == {}
    ensures TenderedBy(tenders, ModesInto(account)) == 0
  {
    if tenders != [] {
      NoTendersElsewhere(tenders[..|tenders| - 1], account);
    }
  }

  lemma {:induction false} TaxLinesBalance(inv: Invoice, account: Account)
    requires 0 <= inv.taxTotal
    ensures LineBalance(TaxLines(inv), account) == if account == GST_OUTPUT then -inv.taxTotal else 0
  {
    OneLineBalance(JournalLine(GST_OUTPUT, 0, inv.taxTotal), account);
  }

  lemma {:induction false} SaleLinesBalance(inv: Invoice, tenders: seq<Tender>, account: Account)
    requires Payable(inv, tenders)
    ensures LineBalance(SaleLines(inv, tenders), account) == SaleEffect(inv, tenders, account)
  {
    var sales := [JournalLine(SALES, 0, inv.subtotal)];
    OneLineBalance(sales[0], account);
    OneLineBalance(JournalLine(AR, Outstanding(inv), 0), account);
    TaxLinesBalance(inv, account);
    TenderLinesBalance(tenders, account);
    if ModesInto(account) == {} {
      NoTendersElsewhere(tenders, account);
    }
    hide LineBalance, TaxLines, TenderLines, TenderedBy;
    BalanceConcat(sales, TaxLines(inv), account);
    BalanceConcat(sales + TaxLines(inv), TenderLines(tenders), account);
    BalanceConcat(sales + TaxLines(inv) + TenderLines(tenders), CreditLines(inv), account);
  }

  lemma {:induction false} CreditSaleBalance(inv: Invoice, account: Account)
    requires Payable(inv, [])
    ensures LineBalance(CreditSaleLines(inv), account) == SaleEffect(inv, [], account)
  {
    var ar, sales := JournalLine(AR, inv.grandTotal, 0), JournalLine(SALES, 0, inv.subtotal);
    OneLineBalance(ar, account);
    OneLineBalance(sales, account);
    TaxLinesBalance(inv, account);
    BalanceConcat([ar], [sales], account);
    assert [ar] + [sales] == [ar, sales];
    BalanceConcat([ar, sales], TaxLines(inv), account);
  }

  lemma {:induction false} ReceiptLinesBalance(mode: PaymentMethod, amount: int, account: Account)
    ensures LineBalance(ReceiptLines(mode, amount), account)
         == ReceiptEffect(mode, amount, account)
  {
    TenderGoesInto(mode, account);
    var money, ar := JournalLine(TenderAccount(mode), amount, 0), JournalLine(AR, 0, amount);
    OneLineBalance(money, account);
    OneLineBalance(ar, account);
    BalanceConcat([money], [ar], account);
    assert ReceiptLines(mode, amount) == [money] + [ar];
  }

  /** What a receipt's journal puts on an account. */
  function ReceiptEffect(mode: PaymentMethod, amount: int, account: Account): int {
    if account == AR then -amount else if mode in ModesInto(account) then amount else 0
  }

  lemma {:induction false} ReceivedByConcat(a: seq<Payment>, b: seq<Payment>, modes: set<PaymentMethod>)
    ensures ReceivedBy(a + b, modes) == ReceivedBy(a, modes) + ReceivedBy(b, modes)
    decreases |b|
  {
    if b == [] {
      assert a + b == a;
    } else {
      assert (a + b)[..|a + b| - 1] == a + b[..|b| - 1];
      ReceivedByConcat(a, b[..|b| - 1], modes);
    }
  }

  lemma {:induction false} TendersReceived(customer: Option<Id>, tenders: seq<Tender>, today: Date,
                                           modes: set<PaymentMethod>)
    ensures ReceivedBy(TenderPayments(customer, tenders, today), modes) == TenderedBy(tenders, modes)
  {
    if tenders != [] {
      var n := |tenders| - 1;
      TendersReceived(customer, tenders[..n], today, modes);
      assert TenderPayments(customer, tenders, today)[..n] == TenderPayments(customer, tenders[..n], today);
    }
  }

  /** The journal grew by the entry of a sale, dated like the invoice, or by nothing for
      a total of zero. */
  ghost predicate PostsSale(before: seq<JournalEntry>, after: seq<JournalEntry>, inv: Invoice, tenders: seq<Tender>) {
    if inv.grandTotal <= 0 then after == before
    else
      && |after| == |before| + 1 && after[..|before|] == before && after[|before|].date == inv.date
      && forall account :: LineBalance(after[|before|].lines, account) == SaleEffect(inv, tenders, account)
  }

  lemma {:induction false} SalePosts(before: seq<JournalEntry>, inv: Invoice, tenders: seq<Tender>)
    requires 0 < inv.grandTotal ==> Payable(inv, tenders)
    ensures PostsSale(before, before + SaleJournal(inv, tenders), inv, tenders)
  {
    if 0 < inv.grandTotal {
      forall account ensures LineBalance(SaleLines(inv, tenders), account) == SaleEffect(inv, tenders, account) {
        SaleLinesBalance(inv, tenders, account);
      }
    }
  }

  lemma {:induction false} DispatchPosts(before: seq<JournalEntry>, inv: Invoice)
    requires 0 < inv.grandTotal ==> Payable(inv, [])
    ensures PostsSale(before, before + DispatchJournal(inv), inv, [])
  {
    if 0 < inv.grandTotal {
      forall account ensures LineBalance(CreditSaleLines(inv), account) == SaleEffect(inv, [], account) {
        CreditSaleBalance(inv, account);
      }
    }
  }

  /** The journal grew by the entry of a receipt. */
  ghost predicate PostsReceipt(before: seq<JournalEntry>, after: seq<JournalEntry>, mode: PaymentMethod, amount: int,
                               date: Date) {
    && |after| == |before| + 1 && after[..|before|] == before && after[|before|].date == date
    && forall account :: LineBalance(after[|before|].lines, account) == ReceiptEffect(mode, amount, account)
  }

  lemma {:induction false} ReceiptPosts(before: seq<JournalEntry>, mode: PaymentMethod, amount: int, date: Date)
    ensures PostsReceipt(before, before + [JournalEntry(date, ReceiptLines(mode, amount))], mode, amount, date)
  {
    forall account ensures LineBalance(ReceiptLines(mode, amount), account) == ReceiptEffect(mode, amount, account) {
      ReceiptLinesBalance(mode, amount, account);
    }
  }
}
