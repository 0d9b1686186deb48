/** backend/app/modules/numbering/service.py: issuing, formatting and reading back
    document numbers. */
module Numbering {
  import opened Prelude
  import opened Stock
  import opened Documents
  import opened Persistence

  /** lo, lo + 1, ..., hi - 1. */
  function From(lo: nat, hi: nat): (r: seq<nat>)
    ensures |r| == if lo < hi then hi - lo else 0
    ensures forall i :: 0 <= i < |r| ==> r[i] == lo + i
    decreases hi
  {
    if hi <= lo then [] else From(lo, hi - 1) + [hi - 1]
  }

  // --- The printed number --------------------------------------------------------------

  const PADDING: nat := 5
  const CODE_CHARACTERS: nat := 11

  function BasePrefix(d: DocumentType): string {
    match d
    case InvoiceDocument => "INV"
    case OrderDocument => "SO"
    case QuotationDocument => "QTN"
    case RepairDocument => "JOB"
  }

  /** Branch-scoped sequences carry the branch code, cut to fit the column. */
  function PrefixFor(scope: Scope, codes: map<Id, string>): string {
    var base := BasePrefix(scope.document);
    if scope.branch.None? || scope.branch.value !in codes then base
    else Cut(codes[scope.branch.value]) + "-" + base
  }

  function Cut(code: string): string {
    if |code| <= CODE_CHARACTERS then code else code[..CODE_CHARACTERS]
  }

  function Digit(d: nat): char
    requires d < 10
  {
    "0123456789"[d]
  }

  function Digits(n: nat): string {
    if n < 10 then [Digit(n)] else Digits(n / 10) + [Digit(n % 10)]
  }

  function Zeros(n: nat): string {
    if n == 0 then "" else Zeros(n - 1) + "0"
  }

  function Padded(n: nat): string {
    var d := Digits(n);
    if |d| < PADDING then Zeros(PADDING - |d|) + d else d
  }

  function Format(prefix: string, n: nat): string {
    prefix + "-" + Padded(n)
  }

  // --- Reading it back --------------------------------------------------------------------

  predicate IsDigit(c: char) { '0' <= c <= '9' }

  function ValueOf(s: string): nat {
    if s == "" then 0
    else ValueOf(s[..|s| - 1]) * 10 + if IsDigit(s[|s| - 1]) then s[|s| - 1] as nat - '0' as nat else 0
  }

  /** The characters after the last dash. */
  function AfterDash(s: string): string {
    if s == "" || s[|s| - 1] == '-' then "" else AfterDash(s[..|s| - 1]) + [s[|s| - 1]]
  }

  lemma {:induction false} DigitReads(d: nat, front: string)
    requires d < 10
    ensures IsDigit(Digit(d)) && ValueOf(front + [Digit(d)]) == ValueOf(front) * 10 + d
  {
    assert (front + [Digit(d)])[..|front|] == front;
  }

  lemma {:induction false} DigitsRead(n: nat)
    ensures ValueOf(Digits(n)) == n
    ensures forall i :: 0 <= i < |Digits(n)| ==> IsDigit(Digits(n)[i])
  {
    if n < 10 {
      DigitReads(n, "");
      assert "" + [Digit(n)] == [Digit(n)];
    } else {
      DigitsRead(n / 10);
      DigitReads(n % 10, Digits(n / 10));
    }
  }

  lemma {:induction false} ZerosRead(k: nat, s: string)
    requires forall i :: 0 <= i < |s| ==> IsDigit(s[i])
    ensures ValueOf(Zeros(k) + s) == ValueOf(s)
    ensures forall i :: 0 <= i < |Zeros(k) + s| ==> IsDigit((Zeros(k) + s)[i])
    decreases k, |s|
  {
    if s == "" {
      assert Zeros(k) + s == Zeros(k);
      if k != 0 {
        ZerosRead(k - 1, "");
        assert Zeros(k - 1) + "" == Zeros(k - 1);
        assert Zeros(k)[..|Zeros(k)| - 1] == Zeros(k - 1);
      }
    } else {
      var front := s[..|s| - 1];
      ZerosRead(k, front);
      assert Zeros(k) + s == (Zeros(k) + front) + [s[|s| - 1]];
      assert (Zeros(k) + s)[..|Zeros(k) + s| - 1] == Zeros(k) + front;
    }
  }

  lemma {:induction false} PaddedReads(n: nat)
    ensures ValueOf(Padded(n)) == n
    ensures forall i :: 0 <= i < |Padded(n)| ==> IsDigit(Padded(n)[i])
  {
    DigitsRead(n);
    var d := Digits(n);
    if |d| < PADDING {
      ZerosRead(PADDING - |d|, d);
    }
  }

  lemma {:induction false} AfterDashIs(prefix: string, s: string)
    requires forall i :: 0 <= i < |s| ==> s[i] != '-'
    ensures AfterDash(prefix + "-" + s) == s
  {
    var all := prefix + "-" + s;
    if s != "" {
      var front := s[..|s| - 1];
      AfterDashIs(prefix, front);
      assert all[..|all| - 1] == prefix + "-" + front;
    }
  }

  /** A printed number gives back its value and its prefix. */
  lemma {:induction false} FormatRoundTrip(prefix: string, n: nat)
    ensures var text := Format(prefix, n);
            && ValueOf(AfterDash(text)) == n
            && |AfterDash(text)| < |text|
            && text[..|text| - |AfterDash(text)| - 1] == prefix
  {
    PaddedReads(n);
    AfterDashIs(prefix, Padded(n));
  }

  lemma {:induction false} FormatInjective(p: string, m: nat, q: string, n: nat)
    requires Format(p, m) == Format(q, n)
    ensures p == q && m == n
  {
    FormatRoundTrip(p, m);
    FormatRoundTrip(q, n);
  }

  // --- What is printed ----------------------------------------------------------------------

  /** A number of at least five digits, with no zero in front that five do not need. */
  ghost predicate FiveDigits(text: string, n: nat) {
    && (forall i :: 0 <= i < |text| ==> '0' <= text[i] <= '9')
    && ValueOf(text) == n
    && 5 <= |text|
    && (5 < |text| ==> text[0] != '0')
  }

  lemma {:induction false} DigitsLead(n: nat)
    requires 0 < n
    ensures Digits(n)[0] != '0'
  {
    if 10 <= n {
      DigitsLead(n / 10);
    }
  }

  lemma {:induction false} FormatShows(prefix: string, n: nat)
    ensures exists text :: FiveDigits(text, n) && Format(prefix, n) == prefix + "-" + text
  {
    PaddedReads(n);
    var d := Digits(n);
    if |d| < PADDING {
      ZerosCount(PADDING - |d|);
    } else if 10 <= n {
      DigitsLead(n);
    }
    assert FiveDigits(Padded(n), n);
  }

  lemma {:induction false} ZerosCount(k: nat)
    ensures |Zeros(k)| == k
  {
    if k != 0 {
      ZerosCount(k - 1);
    }
  }

  /** A branch's documents show the first eleven characters of its code. */
  lemma {:induction false} BranchShows(codes: map<Id, string>, branch: Id)
    requires branch in codes
    ensures var code := codes[branch];
            var shown := if |code| < 11 then code else code[..11];
            && PrefixFor(Scope(InvoiceDocument, Some(branch)), codes) == shown + "-INV"
            && PrefixFor(Scope(OrderDocument, Some(branch)), codes) == shown + "-SO"
            && PrefixFor(Scope(QuotationDocument, Some(branch)), codes) == shown + "-QTN"
            && PrefixFor(Scope(RepairDocument, Some(branch)), codes) == shown + "-JOB"
  {
    PrefixIs(InvoiceDocument, branch, codes);
    PrefixIs(OrderDocument, branch, codes);
    PrefixIs(QuotationDocument, branch, codes);
    PrefixIs(RepairDocument, branch, codes);
    assert codes[branch][..|codes[branch]|] == codes[branch];
  }

  predicate ElevenAgree(a: string, b: string) {
    a == b || (11 <= |a| && 11 <= |b| && a[..11] == b[..11])
  }

  lemma {:induction false} CutsAgree(a: string, b: string)
    ensures Cut(a) == Cut(b) <==> ElevenAgree(a, b)
  {
    assert Cut(a) == Cut(b) && 11 < |a| ==> |Cut(b)| == 11;
    if |a| == 11 { assert a[..11] == a; }
    if |b| == 11 { assert b[..11] == b; }
  }

  predicate KnownBranch(branch: Option<Id>, codes: map<Id, string>) {
    branch.Some? ==> branch.value in codes
  }

  /** The same branch, or two whose codes agree on their first eleven characters. */
  predicate SameOnPaper(a: Option<Id>, b: Option<Id>, codes: map<Id, string>)
    requires KnownBranch(a, codes) && KnownBranch(b, codes)
  {
    a == b || (a.Some? && b.Some? && Cut(codes[a.value]) == Cut(codes[b.value]))
  }

  /** Two documents of the organization print the same number exactly when they are
      of one type, their values agree and their branch codes agree on their first
      eleven characters. */
  lemma {:induction false} PrintedNumbersCollide(codes: map<Id, string>, a: Scope, m: nat, b: Scope, n: nat)
    requires KnownBranch(a.branch, codes) && KnownBranch(b.branch, codes)
    ensures Format(PrefixFor(a, codes), m) == Format(PrefixFor(b, codes), n)
            <==> a.document == b.document && m == n && SameOnPaper(a.branch, b.branch, codes)
    ensures SameOnPaper(a.branch, b.branch, codes)
            <==> || a.branch == b.branch
                 || (a.branch.Some? && b.branch.Some? && ElevenAgree(codes[a.branch.value], codes[b.branch.value]))
  {
    if a.branch.Some? && b.branch.Some? {
      CutsAgree(codes[a.branch.value], codes[b.branch.value]);
    }
    var p, q := PrefixFor(a, codes), PrefixFor(b, codes);
    if Format(p, m) == Format(q, n) {
      FormatInjective(p, m, q, n);
    }
    LastCharacter(a, codes);
    LastCharacter(b, codes);
    if a.branch.Some? && b.branch.Some? && a.document == b.document {
      PrefixIs(a.document, a.branch.value, codes);
      PrefixIs(b.document, b.branch.value, codes);
      SuffixCancels(Cut(codes[a.branch.value]), Cut(codes[b.branch.value]), "-" + BasePrefix(a.document));
    }
  }

  /** The last character of a prefix tells the document type. */
  lemma {:induction false} LastCharacter(scope: Scope, codes: map<Id, string>)
    ensures var p := PrefixFor(scope, codes);
            p != "" && p[|p| - 1] == match scope.document
                                     case InvoiceDocument => 'V'
                                     case OrderDocument => 'O'
                                     case QuotationDocument => 'N'
                                     case RepairDocument => 'B'
  {
  }

  lemma {:induction false} PrefixIs(d: DocumentType, branch: Id, codes: map<Id, string>)
    requires branch in codes
    ensures PrefixFor(Scope(d, Some(branch)), codes) == Cut(codes[branch]) + ("-" + BasePrefix(d))
  {
  }

  lemma {:induction false} SuffixCancels(s: string, t: string, suffix: string)
    ensures s + suffix == t + suffix ==> s == t
  {
    if s + suffix == t + suffix {
      assert s == (s + suffix)[..|s|] && t == (t + suffix)[..|t|];
    }
  }

  /** Codes that agree on eleven characters collide. */
  lemma {:induction false} LongCodesCollide()
    ensures var codes := map[0 := "WAREHOUSE-N1", 1 := "WAREHOUSE-N2"];
            codes[0] != codes[1]
            && Format(PrefixFor(Scope(InvoiceDocument, Some(0)), codes), 1)
               == Format(PrefixFor(Scope(InvoiceDocument, Some(1)), codes), 1)
  {
    var a, b := "WAREHOUSE-N1", "WAREHOUSE-N2";
    assert |a| == 12 && |b| == 12;
    assert a[..11] == "WAREHOUSE-N" && b[..11] == "WAREHOUSE-N";
    assert a[11] != b[11];
  }

  // --- Issuing -----------------------------------------------------------------------------

  function NextValue(numbers: map<Scope, NumberSequence>, scope: Scope): nat {
    if scope in numbers then numbers[scope].nextValue else 1
  }

  /** The number the next document of a scope gets; a new sequence takes its prefix
      from the branch's code. */
  function NextOf(numbers: map<Scope, NumberSequence>, codes: map<Id, string>, scope: Scope): DocumentNumber {
    DocumentNumber(if scope in numbers then numbers[scope].prefix else PrefixFor(scope, codes),
                   NextValue(numbers, scope))
  }

  /** The sequences after that number was taken. */
  function Advanced(numbers: map<Scope, NumberSequence>, codes: map<Id, string>, scope: Scope): map<Scope,
                    NumberSequence> {
    var n := NextOf(numbers, codes, scope);
    numbers[scope := NumberSequence(n.prefix, n.value + 1)]
  }

  function Printed(n: DocumentNumber): string { Format(n.prefix, n.value) }

  datatype NumberingError = UnknownBranch

  class NumberingService {
    const db: Database

    constructor (db: Database)
      ensures this.db == db
    {
      this.db := db;
    }

    /** A missing sequence starts at one, with the prefix of its branch; a branch
        that does not exist cannot have a sequence (the row's foreign key). */
    method NextNumber(scope: Scope) returns (r: Result<DocumentNumber, NumberingError>)
      modifies db`numbers
      ensures r.Err? <==> scope !in old(db.numbers) && !KnownBranch(scope.branch, db.codes)
      ensures r.Err? ==> db.numbers == old(db.numbers)
      ensures r.Ok? ==> r.value == NextOf(old(db.numbers), db.codes, scope)
      ensures r.Ok? ==> db.numbers == Advanced(old(db.numbers), db.codes, scope)
    {
      if scope !in db.numbers {
        if !KnownBranch(scope.branch, db.codes) {
          return Err(UnknownBranch);
        }
        db.numbers := db.numbers[scope := NumberSequence(PrefixFor(scope, db.codes), 1)];
      }
      var sequence := db.numbers[scope];
      db.numbers := db.numbers[scope := NumberSequence(sequence.prefix, sequence.nextValue + 1)];
      r := Ok(DocumentNumber(sequence.prefix, sequence.nextValue));
    }
  }
}
