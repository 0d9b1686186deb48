/** Concurrent issuance of document numbers (numbering/service.py:40-87): each
    transaction takes the scope's advisory lock, reads the sequence row, writes it
    back one higher, and in the end commits or rolls back. Steps of different
    transactions interleave freely. */
module NumberingProtocol {
  import opened Prelude
  import opened Stock
  import opened Documents
  import opened Numbering
  import opened Registers

  type TxId = nat

  /** The hash behind the advisory lock; different scopes may collide. */
  type LockKey = Scope -> int

  /** What one transaction has read, and written but not committed. */
  datatype Tx = Tx(read: Option<NumberedRow>, buffer: Sequences, numbers: seq<NumberedRow>)

  const FRESH := Tx(None, map[], [])

  /** Committed sequence rows and documents, the branch codes, and the transactions
      under way. */
  datatype State = State(
    next: Sequences,
    issued: seq<NumberedRow>,
    codes: map<Id, string>,
    locks: map<int, TxId>,
    txs: map<TxId, Tx>)

  function Initial(codes: map<Id, string>): State { State(map[], [], codes, map[], map[]) }

  datatype Step =
    | Lock(tx: TxId, scope: Scope)
    | Read(tx: TxId, scope: Scope)
    | Write(tx: TxId)
    | Commit(tx: TxId)
    | Abort(tx: TxId)

  function TxOf(s: State, t: TxId): Tx {
    if t in s.txs then s.txs[t] else FRESH
  }

  predicate Holds(s: State, key: LockKey, t: TxId, scope: Scope) {
    key(scope) in s.locks && s.locks[key(scope)] == t
  }

  /** A transaction sees its own writes, and otherwise what is committed. */
  function Seen(s: State, t: TxId): Sequences {
    s.next + TxOf(s, t).buffer
  }

  predicate Enabled(s: State, key: LockKey, step: Step) {
    match step
    case Lock(t, scope) => key(scope) !in s.locks || s.locks[key(scope)] == t
    case Read(t, scope) => Holds(s, key, t, scope)
    case Write(t) => TxOf(s, t).read.Some?
    case Commit(t) => true
    case Abort(t) => true
  }

  function Unlocked(s: State, t: TxId): map<int, TxId> {
    map k | k in s.locks && s.locks[k] != t :: s.locks[k]
  }

  function Apply(s: State, key: LockKey, step: Step): State
    requires Enabled(s, key, step)
  {
    match step
    case Lock(t, scope) => s.(locks := s.locks[key(scope) := t])
    case Read(t, scope) =>
      s.(txs := s.txs[t := TxOf(s, t).(read := Some(NumberedRow(scope, NextOf(Seen(s, t), s.codes, scope))))])
    case Write(t) =>
      var tx := TxOf(s, t);
      var row := tx.read.value;
      var taken := NumberSequence(row.number.prefix, row.number.value + 1);
      s.(txs := s.txs[t := Tx(None, tx.buffer[row.scope := taken], tx.numbers + [row])])
    case Commit(t) =>
      State(Seen(s, t), s.issued + TxOf(s, t).numbers, s.codes, Unlocked(s, t), s.txs[t := FRESH])
    case Abort(t) => State(s.next, s.issued, s.codes, Unlocked(s, t), s.txs[t := FRESH])
  }

  predicate RunOk(s: State, key: LockKey, steps: seq<Step>)
    decreases |steps|
  {
    steps == [] || (Enabled(s, key, steps[0]) && RunOk(Apply(s, key, steps[0]), key, steps[1..]))
  }

  function After(s: State, key: LockKey, steps: seq<Step>): State
    requires RunOk(s, key, steps)
    decreases |steps|
  {
    if steps == [] then s else After(Apply(s, key, steps[0]), key, steps[1..])
  }

  // --- What the numbers are ---------------------------------------------------------------

  /** The committed numbers of every scope are 1, 2, ..., in order. */
  ghost predicate InOrder(s: State) {
    forall scope :: 1 <= NextValue(s.next, scope) && ValuesOf(s.issued, scope) == From(1, NextValue(s.next, scope))
  }

  /** What a transaction wrote lies behind its locks and continues the committed
      numbers. */
  ghost predicate TxOk(s: State, key: LockKey, t: TxId) {
    var tx := TxOf(s, t);
    && (forall scope :: scope in tx.buffer ==>
          Holds(s, key, t, scope) && NextValue(s.next, scope) <= tx.buffer[scope].nextValue)
    && (forall scope :: ValuesOf(tx.numbers, scope) == From(NextValue(s.next, scope), NextValue(Seen(s, t), scope)))
    && (tx.read.Some? ==>
          var row := tx.read.value;
          Holds(s, key, t, row.scope) && row.number.value == NextValue(Seen(s, t), row.scope))
  }

  ghost predicate Inv(s: State, key: LockKey) {
    InOrder(s) && forall t :: TxOk(s, key, t)
  }

  lemma {:induction false} ValuesConcat(a: seq<NumberedRow>, b: seq<NumberedRow>, scope: Scope)
    ensures ValuesOf(a + b, scope) == ValuesOf(a, scope) + ValuesOf(b, scope)
  {
    if b == [] {
      assert a + b == a;
    } else {
      var front, last := b[..|b| - 1], b[|b| - 1];
      ValuesConcat(a, front, scope);
      ValuesSnoc(a + front, last, scope);
      ValuesSnoc(front, last, scope);
      assert a + b == a + front + [last] && b == front + [last];
    }
  }

  lemma {:induction false} FromConcat(lo: nat, mid: nat, hi: nat)
    requires lo <= mid <= hi
    ensures From(lo, mid) + From(mid, hi) == From(lo, hi)
  {
  }

  lemma {:induction false} InitialInv(key: LockKey, codes: map<Id, string>)
    ensures Inv(Initial(codes), key)
  {
  }

  /** Two transactions never hold one scope. */
  lemma {:induction false} LockKeeps(s: State, key: LockKey, t: TxId, scope: Scope)
    requires Inv(s, key) && Enabled(s, key, Lock(t, scope))
    ensures Inv(Apply(s, key, Lock(t, scope)), key)
  {
    var after := Apply(s, key, Lock(t, scope));
    forall u ensures TxOk(after, key, u) {
      assert TxOk(s, key, u);
      assert TxOf(after, u) == TxOf(s, u);
      assert forall c :: Holds(s, key, u, c) ==> Holds(after, key, u, c);
      assert forall c :: NextValue(Seen(after, u), c) == NextValue(Seen(s, u), c);
    }
  }

  lemma {:induction false} ReadKeeps(s: State, key: LockKey, t: TxId, scope: Scope)
    requires Inv(s, key) && Enabled(s, key, Read(t, scope))
    ensures Inv(Apply(s, key, Read(t, scope)), key)
  {
    var after := Apply(s, key, Read(t, scope));
    forall u ensures TxOk(after, key, u) {
      assert TxOk(s, key, u);
      assert TxOf(after, u).buffer == TxOf(s, u).buffer && TxOf(after, u).numbers == TxOf(s, u).numbers;
      assert forall c :: NextValue(Seen(after, u), c) == NextValue(Seen(s, u), c);
      assert forall c :: Holds(s, key, u, c) ==> Holds(after, key, u, c);
    }
  }

  lemma {:induction false} WriteKeeps(s: State, key: LockKey, t: TxId)
    requires Inv(s, key) && Enabled(s, key, Write(t))
    ensures Inv(Apply(s, key, Write(t)), key)
  {
    var after := Apply(s, key, Write(t));
    assert TxOk(s, key, t);
    WroteOk(s, key, t);
    hide TxOk, ValuesOf, From;
    forall u ensures TxOk(after, key, u) {
      assert TxOk(s, key, u);
      if u != t {
        SameTx(s, after, key, u);
      }
    }
  }

  lemma {:induction false} SameTx(s: State, after: State, key: LockKey, u: TxId)
    requires TxOk(s, key, u) && TxOf(after, u) == TxOf(s, u)
    requires after.next == s.next && after.locks == s.locks
    ensures TxOk(after, key, u)
  {
    assert forall c :: NextValue(Seen(after, u), c) == NextValue(Seen(s, u), c);
  }

  lemma {:induction false} WroteOk(s: State, key: LockKey, t: TxId)
    requires TxOk(s, key, t) && Enabled(s, key, Write(t))
    ensures TxOk(Apply(s, key, Write(t)), key, t)
  {
    var after, tx := Apply(s, key, Write(t)), TxOf(s, t);
    forall c
      ensures ValuesOf(TxOf(after, t).numbers, c) == From(NextValue(after.next, c), NextValue(Seen(after, t), c))
    {
      ValuesSnoc(tx.numbers, tx.read.value, c);
    }
    assert forall c :: Holds(s, key, t, c) ==> Holds(after, key, t, c);
  }

  /** Ending `t` cannot touch what `u` has written: their locks differ. */
  lemma {:induction false} OthersKeep(s: State, key: LockKey, t: TxId, u: TxId, next: Sequences,
                                      issued: seq<NumberedRow>)
    requires TxOk(s, key, t) && TxOk(s, key, u) && u != t
    requires next == s.next || next == s.next + TxOf(s, t).buffer
    ensures TxOk(State(next, issued, s.codes, Unlocked(s, t), s.txs[t := FRESH]), key, u)
  {
    var after := State(next, issued, s.codes, Unlocked(s, t), s.txs[t := FRESH]);
    var tx := TxOf(s, u);
    assert TxOf(after, u) == tx;
    Untouched(s, key, t, u, next);
    StillHolds(s, key, t, u, after);
    hide ValuesOf, Holds, NextValue;
    forall c ensures ValuesOf(tx.numbers, c) == From(NextValue(next, c), NextValue(Seen(after, u), c)) {
      SeenThen(s, next, tx.buffer, c);
      if c in tx.buffer {
        assert Holds(s, key, u, c);
      }
    }
    if tx.read.Some? {
      SeenThen(s, next, tx.buffer, tx.read.value.scope);
    }
  }

  lemma {:induction false} SeenThen(s: State, next: Sequences, buffer: Sequences, c: Scope)
    ensures c in buffer ==> NextValue(next + buffer, c) == NextValue(s.next + buffer, c) == buffer[c].nextValue
    ensures c !in buffer ==> NextValue(next + buffer, c) == NextValue(next, c)
    ensures c !in buffer ==> NextValue(s.next + buffer, c) == NextValue(s.next, c)
  {
  }

  lemma {:induction false} Untouched(s: State, key: LockKey, t: TxId, u: TxId, next: Sequences)
    requires TxOk(s, key, t) && u != t && (next == s.next || next == s.next + TxOf(s, t).buffer)
    ensures forall c :: Holds(s, key, u, c) ==> NextValue(next, c) == NextValue(s.next, c)
  {
    hide ValuesOf;
    forall c | Holds(s, key, u, c) ensures NextValue(next, c) == NextValue(s.next, c) {
      assert c in TxOf(s, t).buffer ==> Holds(s, key, t, c);
    }
  }

  lemma {:induction false} StillHolds(s: State, key: LockKey, t: TxId, u: TxId, after: State)
    requires u != t && after.locks == Unlocked(s, t)
    ensures forall c :: Holds(s, key, u, c) ==> Holds(after, key, u, c)
  {
  }

  lemma {:induction false} FreshOk(s: State, key: LockKey, t: TxId)
    requires TxOf(s, t) == FRESH
    ensures TxOk(s, key, t)
  {
  }

  lemma {:induction false} AbortKeeps(s: State, key: LockKey, t: TxId)
    requires Inv(s, key)
    ensures Inv(Apply(s, key, Abort(t)), key)
  {
    var after := Apply(s, key, Abort(t));
    forall u ensures TxOk(after, key, u) {
      if u == t {
        FreshOk(after, key, t);
      } else {
        assert TxOk(s, key, t) && TxOk(s, key, u);
        OthersKeep(s, key, t, u, s.next, s.issued);
      }
    }
  }

  lemma {:induction false} CommitKeeps(s: State, key: LockKey, t: TxId)
    requires Inv(s, key)
    ensures Inv(Apply(s, key, Commit(t)), key)
  {
    var after := Apply(s, key, Commit(t));
    var tx := TxOf(s, t);
    assert TxOk(s, key, t);
    forall u ensures TxOk(after, key, u) {
      if u == t {
        FreshOk(after, key, t);
      } else {
        assert TxOk(s, key, u);
        OthersKeep(s, key, t, u, after.next, after.issued);
      }
    }
    forall c ensures 1 <= NextValue(after.next, c) && ValuesOf(after.issued, c) == From(1, NextValue(after.next, c)) {
      ValuesConcat(s.issued, tx.numbers, c);
      assert NextValue(after.next, c) == NextValue(Seen(s, t), c);
      assert ValuesOf(s.issued, c) == From(1, NextValue(s.next, c));
      FromConcat(1, NextValue(s.next, c), NextValue(Seen(s, t), c));
    }
  }

  lemma {:induction false} StepKeeps(s: State, key: LockKey, step: Step)
    requires Inv(s, key) && Enabled(s, key, step)
    ensures Inv(Apply(s, key, step), key)
  {
    hide *;
    match step
    case Lock(t, scope) => LockKeeps(s, key, t, scope);
    case Read(t, scope) => ReadKeeps(s, key, t, scope);
    case Write(t) => WriteKeeps(s, key, t);
    case Commit(t) => CommitKeeps(s, key, t);
    case Abort(t) => AbortKeeps(s, key, t);
  }

  lemma {:induction false} RunKeeps(s: State, key: LockKey, steps: seq<Step>)
    requires Inv(s, key) && RunOk(s, key, steps)
    ensures Inv(After(s, key, steps), key)
    decreases |steps|
  {
    if steps != [] {
      hide Inv, Enabled, Apply;
      StepKeeps(s, key, steps[0]);
      RunKeeps(Apply(s, key, steps[0]), key, steps[1..]);
    }
  }

  /** Under any interleaving, and any collisions of lock keys, the committed numbers
      of every scope are exactly 1..n: no gap and no repeat, rolled back
      transactions included. */
  lemma {:induction false} CommittedNumbersAreGapless(key: LockKey, codes: map<Id, string>, steps: seq<Step>,
                                                      scope: Scope)
    requires RunOk(Initial(codes), key, steps)
    ensures var end := After(Initial(codes), key, steps);
            ValuesOf(end.issued, scope) == From(1, NextValue(end.next, scope))
  {
    InitialInv(key, codes);
    RunKeeps(Initial(codes), key, steps);
  }

  lemma {:induction false} RunCons(s: State, key: LockKey, step: Step, rest: seq<Step>)
    requires Enabled(s, key, step) && RunOk(Apply(s, key, step), key, rest)
    ensures RunOk(s, key, [step] + rest)
    ensures After(s, key, [step] + rest) == After(Apply(s, key, step), key, rest)
  {
    assert ([step] + rest)[1..] == rest;
  }

  /** A transaction alone gets the number `NextNumber` returns, and leaves the sequences
      as it does. */
  lemma {:induction false} AloneIsNextNumber(s: State, key: LockKey, t: TxId, scope: Scope)
    requires s.locks == map[] && TxOf(s, t) == FRESH
    ensures var steps := [Lock(t, scope)] + ([Read(t, scope)] + ([Write(t)] + ([Commit(t)] + [])));
            && RunOk(s, key, steps)
            && var end := After(s, key, steps);
               && end.issued == s.issued + [NumberedRow(scope, NextOf(s.next, s.codes, scope))]
               && end.next == Advanced(s.next, s.codes, scope)
  {
    var s1 := Apply(s, key, Lock(t, scope));
    var s2 := Apply(s1, key, Read(t, scope));
    var s3 := Apply(s2, key, Write(t));
    RunCons(s3, key, Commit(t), []);
    RunCons(s2, key, Write(t), [Commit(t)] + []);
    RunCons(s1, key, Read(t, scope), [Write(t)] + ([Commit(t)] + []));
    RunCons(s, key, Lock(t, scope), [Read(t, scope)] + ([Write(t)] + ([Commit(t)] + [])));
    assert Seen(s, t) == s.next && Seen(s1, t) == s.next;
  }
}
