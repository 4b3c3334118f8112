/** `LedgerService`: balance validation and reversal of posted transactions that may have any
    number of entries. */
module Reversal {
  import opened Common
  import opened Ledger

  type TxId = nat

  datatype Status = Posted | Reversed | OtherStatus

  datatype LedgerEntry = LedgerEntry(target: Target, kind: Kind, amount: nat, balanceAfter: int)

  /** A row of the entry table: the transaction it belongs to and its columns. */
  datatype Line = Line(tx: TxId, entry: LedgerEntry)

  datatype Row = Row(
    reference: string,
    status: Status,
    totalDebit: nat,
    totalCredit: nat,
    reversalOf: Option<TxId>,
    reversalReference: Option<string>)

  datatype Tables = Tables(rows: map<TxId, Row>, lines: seq<Line>, nextId: TxId)

  datatype Failure = NotFound | NotPosted | ReferenceTaken | NoEntries | Imbalance

  datatype Outcome = Done(tables: Tables) | Failed(failure: Failure)

  // ---------------------------------------------------------------- sums

  function LinesOf(lines: seq<Line>, id: TxId): seq<LedgerEntry> {
    if lines == [] then []
    else
      var last := lines[|lines| - 1];
      LinesOf(lines[..|lines| - 1], id) + if last.tx == id then [last.entry] else []
  }

  function SumOf(entries: seq<LedgerEntry>, kind: Kind): nat {
    if entries == [] then 0
    else
      var last := entries[|entries| - 1];
      SumOf(entries[..|entries| - 1], kind) + if last.kind == kind then last.amount else 0
  }

  function Effect(e: LedgerEntry, t: Target): int {
    if e.target != t then 0 else if e.kind == Debit then 0 - e.amount else e.amount
  }

  function Net(entries: seq<LedgerEntry>, t: Target): int {
    if entries == [] then 0 else Net(entries[..|entries| - 1], t) + Effect(entries[|entries| - 1], t)
  }

  predicate Balanced(entries: seq<LedgerEntry>) {
    SumOf(entries, Debit) == SumOf(entries, Credit)
  }

  function Opposite(kind: Kind): Kind {
    if kind == Debit then Credit else Debit
  }

  function Mirror(entries: seq<LedgerEntry>): seq<LedgerEntry> {
    seq(|entries|, i requires 0 <= i < |entries| => entries[i].(kind := Opposite(entries[i].kind)))
  }

  function Tagged(entries: seq<LedgerEntry>, id: TxId): seq<Line> {
    seq(|entries|, i requires 0 <= i < |entries| => Line(id, entries[i]))
  }

  // ---------------------------------------------------------------- the two operations

  function Validate(t: Tables, id: TxId): Outcome
    requires id in t.rows
  {
    var entries := LinesOf(t.lines, id);
    if entries == [] then Failed(NoEntries)
    else if !Balanced(entries) then Failed(Imbalance)
    else
      var row := t.rows[id].(totalDebit := SumOf(entries, Debit), totalCredit := SumOf(entries, Credit));
      Done(t.(rows := t.rows[id := row]))
  }

  predicate ReferenceUsed(rows: map<TxId, Row>, reference: string) {
    exists id :: id in rows && rows[id].reference == reference
  }

  /** `stamp` is the clock in base 36. */
  function ReversalReference(reference: string, stamp: string): string {
    reference + ":reversal:" + stamp
  }

  /** A failure rolls the surrounding database transaction back. */
  function CreateReversal(t: Tables, id: TxId, stamp: string): Outcome {
    if id !in t.rows then Failed(NotFound)
    else if t.rows[id].status != Posted then Failed(NotPosted)
    else
      var reference := ReversalReference(t.rows[id].reference, stamp);
      if ReferenceUsed(t.rows, reference) then Failed(ReferenceTaken)
      else
        var n := t.nextId;
        var original := t.rows[id].(status := Reversed, reversalReference := Some(reference));
        var reversal := Row(reference, Posted, 0, 0, Some(id), None);
        var written := Tables(
          t.rows[n := reversal][id := original],
          t.lines + Tagged(Mirror(LinesOf(t.lines, id)), n),
          n + 1);
        Validate(written, n)
  }

  /** Identifiers are fresh and entries belong to existing rows. */
  predicate Valid(t: Tables) {
    && (forall id :: id in t.rows ==> id < t.nextId)
    && (forall id :: id in t.rows && t.rows[id].reversalOf.Some? ==>
          t.rows[id].reversalOf.value in t.rows && t.rows[id].reversalOf.value < id)
    && (forall i :: 0 <= i < |t.lines| ==> t.lines[i].tx in t.rows)
  }

  // ---------------------------------------------------------------- algebra of mirrored entries

  lemma {:induction false} LinesOfAppend(a: seq<Line>, b: seq<Line>, id: TxId)
    ensures LinesOf(a + b, id) == LinesOf(a, id) + LinesOf(b, id)
  {
    if b == [] {
      assert a + b == a;
    } else {
      assert (a + b)[..|a + b| - 1] == a + b[..|b| - 1];
      LinesOfAppend(a, b[..|b| - 1], id);
    }
  }

  lemma {:induction false} LinesOfAbsent(lines: seq<Line>, id: TxId)
    requires forall i :: 0 <= i < |lines| ==> lines[i].tx != id
    ensures LinesOf(lines, id) == []
  {
    if lines != [] {
      LinesOfAbsent(lines[..|lines| - 1], id);
    }
  }

  lemma {:induction false} LinesOfTagged(entries: seq<LedgerEntry>, n: TxId, id: TxId)
    ensures LinesOf(Tagged(entries, n), id) == if id == n then entries else []
  {
    if entries != [] {
      var k := |entries| - 1;
      assert Tagged(entries, n)[..k] == Tagged(entries[..k], n);
      LinesOfTagged(entries[..k], n, id);
      assert entries == entries[..k] + [entries[k]];
    }
  }

  /** Mirroring swaps the two totals and negates the effect on every account and wallet. */
  lemma {:induction false} MirrorSums(entries: seq<LedgerEntry>, t: Target)
    ensures SumOf(Mirror(entries), Debit) == SumOf(entries, Credit)
    ensures SumOf(Mirror(entries), Credit) == SumOf(entries, Debit)
    ensures Net(Mirror(entries), t) == 0 - Net(entries, t)
  {
    if entries != [] {
      var k := |entries| - 1;
      assert Mirror(entries)[..k] == Mirror(entries[..k]);
      MirrorSums(entries[..k], t);
    }
  }

  /** The entries of every transaction after a reversal was written. */
  lemma LinesAfter(t: Tables, id: TxId, entries: seq<LedgerEntry>, k: TxId)
    requires Valid(t)
    ensures LinesOf(t.lines + Tagged(entries, t.nextId), k)
         == if k == t.nextId then entries else LinesOf(t.lines, k)
  {
    LinesOfAppend(t.lines, Tagged(entries, t.nextId), k);
    LinesOfTagged(entries, t.nextId, k);
    if k == t.nextId {
      LinesOfAbsent(t.lines, k);
    }
  }

  // ---------------------------------------------------------------- one reversal

  predicate Reversible(t: Tables, id: TxId, stamp: string) {
    && id in t.rows
    && t.rows[id].status == Posted
    && !ReferenceUsed(t.rows, ReversalReference(t.rows[id].reference, stamp))
    && LinesOf(t.lines, id) != []
    && Balanced(LinesOf(t.lines, id))
  }

  /** The balance check runs on the reversal; it passes exactly when the original balances. */
  lemma SucceedsIff(t: Tables, id: TxId, stamp: string)
    requires Valid(t)
    ensures CreateReversal(t, id, stamp).Done? <==> Reversible(t, id, stamp)
  {
    var entries := LinesOf(t.lines, id);
    LinesAfter(t, id, Mirror(entries), t.nextId);
    MirrorSums(entries, OnAccount(CashClearing));
    assert |Mirror(entries)| == |entries|;
  }

  /** The tables after a successful reversal. */
  lemma ReversalRows(t: Tables, id: TxId, stamp: string)
    requires Valid(t) && Reversible(t, id, stamp)
    ensures CreateReversal(t, id, stamp).Done?
    ensures var t' := CreateReversal(t, id, stamp).tables;
            && t'.rows.Keys == t.rows.Keys + {t.nextId}
            && (forall k :: k in t.rows && k != id ==> t'.rows[k] == t.rows[k])
            && t'.rows[id].status == Reversed && t'.rows[id].reversalOf == t.rows[id].reversalOf
            && t'.rows[t.nextId].status == Posted && t'.rows[t.nextId].reversalOf == Some(id)
            && t'.lines == t.lines + Tagged(Mirror(LinesOf(t.lines, id)), t.nextId)
            && t'.nextId == t.nextId + 1
  {
    SucceedsIff(t, id, stamp);
  }

  lemma ReversalTotals(t: Tables, id: TxId, stamp: string)
    requires Valid(t) && Reversible(t, id, stamp)
    ensures CreateReversal(t, id, stamp).Done?
    ensures var t' := CreateReversal(t, id, stamp).tables;
            var total := SumOf(LinesOf(t.lines, id), Debit);
            t.nextId in t'.rows && t'.rows[t.nextId].totalDebit == total && t'.rows[t.nextId].totalCredit == total
  {
    SucceedsIff(t, id, stamp);
    LinesAfter(t, id, Mirror(LinesOf(t.lines, id)), t.nextId);
    MirrorSums(LinesOf(t.lines, id), OnAccount(CashClearing));
  }

  /** An entry with its side exchanged; amount, target and the copied balance stay. */
  predicate IsMirrored(e: LedgerEntry, m: LedgerEntry) {
    && m.target == e.target && m.amount == e.amount && m.balanceAfter == e.balanceAfter
    && m.kind == (if e.kind == Debit then Credit else Debit)
  }

  /** Everything that a reversal writes: one POSTED row with the original's total on both sides, one
      mirrored entry for each of the original's, in order, and the original's new status. */
  lemma ReversalWrites(t: Tables, id: TxId, stamp: string)
    requires Valid(t) && Reversible(t, id, stamp)
    ensures CreateReversal(t, id, stamp).Done?
    ensures var t' := CreateReversal(t, id, stamp).tables;
            var n, entries, reference := t.nextId, LinesOf(t.lines, id), t.rows[id].reference + ":reversal:" + stamp;
            var total := SumOf(entries, Debit);
            && t'.rows == t.rows[id := t.rows[id].(status := Reversed, reversalReference := Some(reference))]
                                [n := Row(reference, Posted, total, total, Some(id), None)]
            && |t'.lines| == |t.lines| + |entries| && t'.lines[..|t.lines|] == t.lines
            && (forall i :: 0 <= i < |entries| ==>
                  t'.lines[|t.lines| + i].tx == n && IsMirrored(entries[i], t'.lines[|t.lines| + i].entry))
            && t'.nextId == n + 1
  {
    ReversalRows(t, id, stamp);
    ReversalTotals(t, id, stamp);
    MirroredLines(t.lines, LinesOf(t.lines, id), t.nextId);
  }

  lemma MirroredLines(lines: seq<Line>, entries: seq<LedgerEntry>, n: TxId)
    ensures var all := lines + Tagged(Mirror(entries), n);
            && |all| == |lines| + |entries| && all[..|lines|] == lines
            && forall i :: 0 <= i < |entries| ==> all[|lines| + i].tx == n && IsMirrored(entries[i], all[|lines| + i].entry)
  {
  }

  /** The first check that fails names the failure. */
  lemma FailureOutcome(t: Tables, id: TxId, stamp: string)
    requires Valid(t) && !Reversible(t, id, stamp)
    ensures CreateReversal(t, id, stamp) ==
            Failed(if id !in t.rows then NotFound
                   else if t.rows[id].status != Posted then NotPosted
                   else if ReferenceUsed(t.rows, t.rows[id].reference + ":reversal:" + stamp) then ReferenceTaken
                   else if LinesOf(t.lines, id) == [] then NoEntries
                   else Imbalance)
  {
    SucceedsIff(t, id, stamp);
    if id in t.rows {
      var entries := LinesOf(t.lines, id);
      LinesAfter(t, id, Mirror(entries), t.nextId);
      MirrorSums(entries, OnAccount(CashClearing));
      assert |Mirror(entries)| == |entries|;
    }
  }

  lemma ReversalValid(t: Tables, id: TxId, stamp: string)
    requires Valid(t) && Reversible(t, id, stamp)
    ensures CreateReversal(t, id, stamp).Done? && Valid(CreateReversal(t, id, stamp).tables)
  {
    ReversalRows(t, id, stamp);
  }

  lemma ValidAfter(t: Tables, id: TxId, stamp: string)
    requires Valid(t)
    ensures CreateReversal(t, id, stamp).Done? ==> Valid(CreateReversal(t, id, stamp).tables)
  {
    SucceedsIff(t, id, stamp);
    if Reversible(t, id, stamp) {
      ReversalValid(t, id, stamp);
    }
  }

  /** The reversal balances with the original's total on both sides, original and reversal sum
      to zero on every account and wallet, no other entry changes, and the original cannot be
      reversed again. */
  lemma ReversalCancels(t: Tables, id: TxId, stamp: string)
    requires Valid(t) && Reversible(t, id, stamp)
    ensures CreateReversal(t, id, stamp).Done?
    ensures var t' := CreateReversal(t, id, stamp).tables;
            && SumOf(LinesOf(t'.lines, t.nextId), Debit) == SumOf(LinesOf(t.lines, id), Debit)
            && SumOf(LinesOf(t'.lines, t.nextId), Credit) == SumOf(LinesOf(t.lines, id), Debit)
            && t.nextId in t'.rows
            && t'.rows[t.nextId].totalDebit == t'.rows[t.nextId].totalCredit == SumOf(LinesOf(t.lines, id), Debit)
            && (forall a :: Net(LinesOf(t'.lines, id), a) + Net(LinesOf(t'.lines, t.nextId), a) == 0)
            && (forall k :: k != t.nextId ==> LinesOf(t'.lines, k) == LinesOf(t.lines, k))
            && (forall again :: CreateReversal(t', id, again) == Failed(NotPosted))
  {
    ReversalRows(t, id, stamp);
    ReversalTotals(t, id, stamp);
    var entries := LinesOf(t.lines, id);
    var t' := CreateReversal(t, id, stamp).tables;
    forall k ensures LinesOf(t'.lines, k) == if k == t.nextId then Mirror(entries) else LinesOf(t.lines, k) {
      LinesAfter(t, id, Mirror(entries), k);
    }
    MirrorSums(entries, OnAccount(CashClearing));
    forall a ensures Net(LinesOf(t'.lines, id), a) + Net(LinesOf(t'.lines, t.nextId), a) == 0 {
      MirrorSums(entries, a);
    }
  }

  // ---------------------------------------------------------------- runs

  datatype Step = Record(reference: string, entries: seq<LedgerEntry>) | Reverse(id: TxId, stamp: string)

  function Recorded(t: Tables, reference: string, entries: seq<LedgerEntry>): Tables {
    if ReferenceUsed(t.rows, reference) then t
    else
      Tables(t.rows[t.nextId := Row(reference, Posted, 0, 0, None, None)], t.lines + Tagged(entries, t.nextId), t.nextId + 1)
  }

  function Apply(t: Tables, step: Step): Tables {
    match step
    case Record(reference, entries) => Recorded(t, reference, entries)
    case Reverse(id, stamp) => var o := CreateReversal(t, id, stamp); if o.Done? then o.tables else t
  }

  function Run(t: Tables, steps: seq<Step>): Tables {
    if steps == [] then t else Apply(Run(t, steps[..|steps| - 1]), steps[|steps| - 1])
  }

  ghost predicate Reverses(t: Tables, n: TxId, id: TxId) {
    n in t.rows && t.rows[n].reversalOf == Some(id)
  }

  /** A row is REVERSED exactly when some row reverses it. */
  ghost predicate ReversedHaveReversal(t: Tables) {
    && (forall n, id :: Reverses(t, n, id) ==> id in t.rows && t.rows[id].status == Reversed)
    && (forall id :: id in t.rows && t.rows[id].status == Reversed ==> exists n :: Reverses(t, n, id))
  }

  ghost predicate ReversedOnce(t: Tables) {
    forall n, m, id :: Reverses(t, n, id) && Reverses(t, m, id) ==> n == m
  }

  ghost predicate PairsCancel(t: Tables) {
    forall n, id, a {:trigger Reverses(t, n, id), Net(LinesOf(t.lines, n), a)} ::
      Reverses(t, n, id) ==> Net(LinesOf(t.lines, id), a) + Net(LinesOf(t.lines, n), a) == 0
  }

  ghost predicate Paired(t: Tables) {
    Valid(t) && ReversedHaveReversal(t) && ReversedOnce(t) && PairsCancel(t)
  }

  lemma RecordKeepsPairs(t: Tables, reference: string, entries: seq<LedgerEntry>)
    requires Paired(t)
    ensures Paired(Recorded(t, reference, entries))
  {
    var t' := Recorded(t, reference, entries);
    if !ReferenceUsed(t.rows, reference) {
      forall k ensures LinesOf(t'.lines, k) == if k == t.nextId then entries else LinesOf(t.lines, k) {
        LinesAfter(t, k, entries, k);
      }
      forall n, id ensures Reverses(t', n, id) == Reverses(t, n, id) {}
    }
  }

  lemma NewReversal(t: Tables, id: TxId, stamp: string, n: TxId, k: TxId)
    requires Valid(t) && Reversible(t, id, stamp)
    ensures CreateReversal(t, id, stamp).Done?
    ensures var t' := CreateReversal(t, id, stamp).tables;
            Reverses(t', n, k) == (Reverses(t, n, k) || (n == t.nextId && k == id))
  {
    ReversalRows(t, id, stamp);
  }

  lemma ReversePairsCancel(t: Tables, id: TxId, stamp: string)
    requires Valid(t) && PairsCancel(t) && Reversible(t, id, stamp)
    ensures CreateReversal(t, id, stamp).Done? && PairsCancel(CreateReversal(t, id, stamp).tables)
  {
    ReversalCancels(t, id, stamp);
    var t' := CreateReversal(t, id, stamp).tables;
    forall n, k, a | Reverses(t', n, k) ensures Net(LinesOf(t'.lines, k), a) + Net(LinesOf(t'.lines, n), a) == 0 {
      NewReversal(t, id, stamp, n, k);
      if n != t.nextId {
        assert LinesOf(t'.lines, n) == LinesOf(t.lines, n) && LinesOf(t'.lines, k) == LinesOf(t.lines, k);
      }
    }
  }

  lemma ReverseIsOnce(t: Tables, id: TxId, stamp: string)
    requires Valid(t) && ReversedHaveReversal(t) && ReversedOnce(t) && Reversible(t, id, stamp)
    ensures CreateReversal(t, id, stamp).Done?
    ensures ReversedHaveReversal(CreateReversal(t, id, stamp).tables) && ReversedOnce(CreateReversal(t, id, stamp).tables)
  {
    ReversalRows(t, id, stamp);
    var t' := CreateReversal(t, id, stamp).tables;
    forall n, k ensures Reverses(t', n, k) == (Reverses(t, n, k) || (n == t.nextId && k == id)) {
      NewReversal(t, id, stamp, n, k);
    }
    forall k | k in t'.rows && t'.rows[k].status == Reversed ensures exists n :: Reverses(t', n, k) {
      assert Reverses(t', t.nextId, id);
      if k != id {
        var n :| Reverses(t, n, k);
        assert Reverses(t', n, k);
      }
    }
  }

  lemma ReverseKeepsPairs(t: Tables, id: TxId, stamp: string)
    requires Paired(t) && Reversible(t, id, stamp)
    ensures CreateReversal(t, id, stamp).Done? && Paired(CreateReversal(t, id, stamp).tables)
  {
    ReversalValid(t, id, stamp);
    ReversePairsCancel(t, id, stamp);
    ReverseIsOnce(t, id, stamp);
  }

  lemma StepKeepsPairs(t: Tables, step: Step)
    requires Paired(t)
    ensures Paired(Apply(t, step))
  {
    match step
    case Record(reference, entries) => RecordKeepsPairs(t, reference, entries);
    case Reverse(id, stamp) =>
      SucceedsIff(t, id, stamp);
      if Reversible(t, id, stamp) {
        ReverseKeepsPairs(t, id, stamp);
      }
  }

  /** Over every run a transaction is reversed at most once, its reversal cancels it, and a
      REVERSED row stays REVERSED. */
  lemma {:induction false} RunKeepsPairs(t: Tables, steps: seq<Step>)
    requires Paired(t)
    ensures Paired(Run(t, steps))
    ensures forall id :: id in t.rows ==> id in Run(t, steps).rows
    ensures forall id :: id in t.rows && t.rows[id].status == Reversed ==> Run(t, steps).rows[id] == t.rows[id]
  {
    if steps != [] {
      var k := |steps| - 1;
      RunKeepsPairs(t, steps[..k]);
      var before := Run(t, steps[..k]);
      StepKeepsPairs(before, steps[k]);
      if steps[k].Reverse? {
        SucceedsIff(before, steps[k].id, steps[k].stamp);
        if Reversible(before, steps[k].id, steps[k].stamp) {
          ReversalRows(before, steps[k].id, steps[k].stamp);
        }
      }
    }
  }

  // ---------------------------------------------------------------- what is in force

  /** Whether a row undoes another one: reversals do, reversals of reversals do not. */
  function Undoes(rows: map<TxId, Row>, id: TxId): bool
    requires forall k :: k in rows && rows[k].reversalOf.Some? ==> rows[k].reversalOf.value in rows && rows[k].reversalOf.value < k
    requires id in rows
    decreases id
  {
    rows[id].reversalOf.Some? && !Undoes(rows, rows[id].reversalOf.value)
  }

  /** A transaction is in force when it is not reversed and does not itself undo another one. */
  predicate InForce(t: Tables, id: TxId)
    requires Valid(t) && id in t.rows
  {
    t.rows[id].status != Reversed && !Undoes(t.rows, id)
  }

  function NetInForce(t: Tables, lines: seq<Line>, a: Target): int
    requires Valid(t) && forall i :: 0 <= i < |lines| ==> lines[i].tx in t.rows
  {
    if lines == [] then 0
    else
      var last := lines[|lines| - 1];
      NetInForce(t, lines[..|lines| - 1], a) + if InForce(t, last.tx) then Effect(last.entry, a) else 0
  }

  function NetOfAll(lines: seq<Line>, a: Target): int {
    if lines == [] then 0 else NetOfAll(lines[..|lines| - 1], a) + Effect(lines[|lines| - 1].entry, a)
  }

  lemma {:induction false} UndoesUnchanged(rows: map<TxId, Row>, rows': map<TxId, Row>, id: TxId)
    requires forall k :: k in rows && rows[k].reversalOf.Some? ==> rows[k].reversalOf.value in rows && rows[k].reversalOf.value < k
    requires forall k :: k in rows' && rows'[k].reversalOf.Some? ==> rows'[k].reversalOf.value in rows' && rows'[k].reversalOf.value < k
    requires forall k :: k in rows ==> k in rows' && rows'[k].reversalOf == rows[k].reversalOf
    requires id in rows
    ensures Undoes(rows', id) == Undoes(rows, id)
    decreases id
  {
    if rows[id].reversalOf.Some? {
      UndoesUnchanged(rows, rows', rows[id].reversalOf.value);
    }
  }

  /** Changing only whether `id` is in force changes the net by that transaction's entries. */
  lemma {:induction false} NetInForceChanges(t: Tables, t': Tables, lines: seq<Line>, id: TxId, a: Target)
    requires Valid(t) && Valid(t') && id in t.rows && id in t'.rows
    requires forall i :: 0 <= i < |lines| ==> lines[i].tx in t.rows && lines[i].tx in t'.rows
    requires forall i :: 0 <= i < |lines| && lines[i].tx != id ==> InForce(t', lines[i].tx) == InForce(t, lines[i].tx)
    ensures NetInForce(t', lines, a) == NetInForce(t, lines, a)
              + (if InForce(t', id) then Net(LinesOf(lines, id), a) else 0)
              - (if InForce(t, id) then Net(LinesOf(lines, id), a) else 0)
  {
    if lines != [] {
      var k := |lines| - 1;
      NetInForceChanges(t, t', lines[..k], id, a);
      if lines[k].tx == id {
        assert LinesOf(lines, id)[..|LinesOf(lines, id)| - 1] == LinesOf(lines[..k], id);
      } else {
        assert LinesOf(lines, id) == LinesOf(lines[..k], id);
      }
    }
  }

  lemma {:induction false} NetOfAllAppends(lines: seq<Line>, entries: seq<LedgerEntry>, n: TxId, a: Target)
    ensures NetOfAll(lines + Tagged(entries, n), a) == NetOfAll(lines, a) + Net(entries, a)
  {
    if entries == [] {
      assert lines + Tagged(entries, n) == lines;
    } else {
      var all := lines + Tagged(entries, n);
      assert all[..|all| - 1] == lines + Tagged(entries[..|entries| - 1], n);
      NetOfAllAppends(lines, entries[..|entries| - 1], n, a);
    }
  }

  lemma {:induction false} NetAppendTagged(t: Tables, lines: seq<Line>, entries: seq<LedgerEntry>, n: TxId, a: Target)
    requires Valid(t) && n in t.rows && forall i :: 0 <= i < |lines| ==> lines[i].tx in t.rows
    ensures NetInForce(t, lines + Tagged(entries, n), a)
         == NetInForce(t, lines, a) + if InForce(t, n) then Net(entries, a) else 0
  {
    if entries == [] {
      assert lines + Tagged(entries, n) == lines;
    } else {
      var all := lines + Tagged(entries, n);
      assert all[..|all| - 1] == lines + Tagged(entries[..|entries| - 1], n);
      NetAppendTagged(t, lines, entries[..|entries| - 1], n, a);
    }
  }

  /** The entry table nets to what is in force, on account or wallet `a`. */
  ghost predicate ShowsWhatIsInForce(t: Tables, a: Target) {
    Valid(t) && NetOfAll(t.lines, a) == NetInForce(t, t.lines, a)
  }

  lemma RecordShows(t: Tables, reference: string, entries: seq<LedgerEntry>, a: Target)
    requires Valid(t) && ShowsWhatIsInForce(t, a)
    ensures ShowsWhatIsInForce(Recorded(t, reference, entries), a)
  {
    var t' := Recorded(t, reference, entries);
    if !ReferenceUsed(t.rows, reference) {
      var n := t.nextId;
      forall k | k in t.rows ensures InForce(t', k) == InForce(t, k) {
        UndoesUnchanged(t.rows, t'.rows, k);
      }
      NetAppendTagged(t', t.lines, entries, n, a);
      NetOfAllAppends(t.lines, entries, n, a);
      if t.lines != [] {
        NetInForceChanges(t, t', t.lines, t.lines[0].tx, a);
      }
    }
  }

  lemma ReverseShows(t: Tables, id: TxId, stamp: string, a: Target)
    requires Valid(t) && ShowsWhatIsInForce(t, a) && Reversible(t, id, stamp)
    ensures CreateReversal(t, id, stamp).Done? && ShowsWhatIsInForce(CreateReversal(t, id, stamp).tables, a)
  {
    ReversalRows(t, id, stamp);
    ReversalValid(t, id, stamp);
    var t' := CreateReversal(t, id, stamp).tables;
    var n := t.nextId;
    var entries := LinesOf(t.lines, id);
    forall k | k in t.rows ensures Undoes(t'.rows, k) == Undoes(t.rows, k) {
      UndoesUnchanged(t.rows, t'.rows, k);
    }
    assert InForce(t', n) == Undoes(t.rows, id);
    NetInForceChanges(t, t', t.lines, id, a);
    NetAppendTagged(t', t.lines, Mirror(entries), n, a);
    NetOfAllAppends(t.lines, Mirror(entries), n, a);
    MirrorSums(entries, a);
  }

  /** Over every run the entries net, on each account and wallet, to the transactions in force:
      those neither reversed nor undoing another one. Reversing a reversal reinstates. */
  lemma {:induction false} RunShowsWhatIsInForce(t: Tables, steps: seq<Step>, a: Target)
    requires Valid(t) && ShowsWhatIsInForce(t, a)
    ensures ShowsWhatIsInForce(Run(t, steps), a)
  {
    if steps != [] {
      var k := |steps| - 1;
      RunShowsWhatIsInForce(t, steps[..k], a);
      var before := Run(t, steps[..k]);
      match steps[k]
      case Record(reference, entries) => RecordShows(before, reference, entries, a);
      case Reverse(id, stamp) =>
        SucceedsIff(before, id, stamp);
        if Reversible(before, id, stamp) {
          ReverseShows(before, id, stamp, a);
        }
    }
  }

  // ---------------------------------------------------------------- the service

  class LedgerService {
    var rows: map<TxId, Row>
    var lines: seq<Line>
    var nextId: TxId

    function View(): Tables
      reads this
    {
      Tables(rows, lines, nextId)
    }

    constructor ()
      ensures View() == Tables(map[], [], 0) && Paired(View())
    {
      rows, lines, nextId := map[], [], 0;
    }

    method ValidateLedgerBalance(id: TxId) returns (failure: Option<Failure>)
      requires id in rows
      modifies this
      ensures match Validate(old(View()), id)
              case Done(t) => failure == None && View() == t
              case Failed(f) => failure == Some(f) && View() == old(View())
    {
      var entries := LinesOf(lines, id);
      if |entries| == 0 {
        return Some(NoEntries);
      }
      var totalDebit, totalCredit := 0, 0;
      for i := 0 to |entries|
        invariant View() == old(View())
        invariant totalDebit == SumOf(entries[..i], Debit) && totalCredit == SumOf(entries[..i], Credit)
      {
        assert entries[..i + 1][..i] == entries[..i];
        if entries[i].kind == Debit {
          totalDebit := totalDebit + entries[i].amount;
        } else {
          totalCredit := totalCredit + entries[i].amount;
        }
      }
      assert entries[..|entries|] == entries;
      if totalDebit != totalCredit {
        return Some(Imbalance);
      }
      rows := rows[id := rows[id].(totalDebit := totalDebit, totalCredit := totalCredit)];
      return None;
    }

    /** One entry on the opposite side for each entry of the original. */
    method WriteOpposites(entries: seq<LedgerEntry>, reversal: TxId)
      modifies this`lines
      ensures lines == old(lines) + Tagged(Mirror(entries), reversal)
    {
      for i := 0 to |entries|
        invariant lines == old(lines) + Tagged(Mirror(entries)[..i], reversal)
      {
        var opposite := if entries[i].kind == Debit then Credit else Debit;
        lines := lines + [Line(reversal, entries[i].(kind := opposite))];
        assert Tagged(Mirror(entries)[..i + 1], reversal)
            == Tagged(Mirror(entries)[..i], reversal) + [Line(reversal, entries[i].(kind := opposite))];
      }
      assert Mirror(entries)[..|entries|] == Mirror(entries);
    }

    /** Everything is rolled back when the validation fails. */
    method Reverse(id: TxId, stamp: string) returns (failure: Option<Failure>)
      requires Valid(View())
      modifies this
      ensures match CreateReversal(old(View()), id, stamp)
              case Done(t) => failure == None && View() == t
              case Failed(f) => failure == Some(f) && View() == old(View())
      ensures Valid(View())
      ensures failure.None? <==> Reversible(old(View()), id, stamp)
    {
      SucceedsIff(View(), id, stamp);
      ValidAfter(View(), id, stamp);
      if id !in rows {
        return Some(NotFound);
      }
      if rows[id].status != Posted {
        return Some(NotPosted);
      }
      var reference := ReversalReference(rows[id].reference, stamp);
      if exists k :: k in rows && rows[k].reference == reference {
        return Some(ReferenceTaken);
      }
      var savedRows, savedLines, reversal := rows, lines, nextId;
      rows := rows[reversal := Row(reference, Posted, 0, 0, Some(id), None)];
      nextId := nextId + 1;
      WriteOpposites(LinesOf(savedLines, id), reversal);
      rows := rows[id := savedRows[id].(status := Reversed, reversalReference := Some(reference))];
      failure := ValidateLedgerBalance(reversal);
      if failure.Some? {
        rows, lines, nextId := savedRows, savedLines, reversal;
      }
    }
  }
}
