/** A round that refunds pays everyone exactly once, over every run of accepted spends. */
module RefundRuns {
  import opened Results
  import opened Bytes
  import opened Layout
  import opened State
  import opened Directory
  import opened Scripts
  import opened Tx
  import opened Frames
  import opened Sil
  import opened ContractSteps
  import opened Spends
  import opened Lineage
  import Refunding
  import Sealed

  // ---------------------------------------------------------------- one batch

  /** Output `index` is an ordinary payment of `value` to `key`. */
  predicate PaysTo(tx: Transaction, index: nat, value: int, key: Bytes) {
    && index < |tx.outputs|
    && tx.outputs[index].value == value
    && tx.outputs[index].scriptPublicKey == P2pk(key)
    && CovenantIdOf(tx.outputs[index]) == ZERO
  }

  function External(e: Env): int
    requires Matched(e)
  {
    TotalIn(e.utxos) - e.utxos[0].value
  }

  function Fee(e: Env): int {
    TotalIn(e.utxos) - TotalOut(e.tx.outputs)
  }

  function Share(s: Ledger, i: nat): int
    requires HasRecords(s.directory, i + 1)
  {
    Cost(CountAt(s.directory, i), s.config.ticketPrice) - REFUND_FEE
  }

  /** One batch pays the records from the cursor on, in the outputs after the successor; the last one also returns the
      deposit. Nothing else is paid but the executor's pool and whatever the executor brought, less the real fee. */
  predicate PaysBatch(e: Env, s: Ledger)
    requires Matched(e) && ValidLedger(s) && s.phase == REFUNDING
  {
    var k, last := BatchSize(s), IsLast(s);
    && 0 < k && s.cursor + k <= s.purchaseCount
    && |e.tx.outputs| == k + 2
    && (forall i {:trigger Share(s, i)} | s.cursor <= i < s.cursor + k ::
          PaysTo(e.tx, (if last then 0 else 1) + i - s.cursor, Share(s, i), KeyAt(s.directory, i)))
    && (last ==> PaysTo(e.tx, k, DEPOSIT - REFUND_FEE, s.ownerKey))
    && e.tx.outputs[k + 1].value == External(e) + Pool(s) - Fee(e)
    && 0 < Fee(e) <= MAX_PAY_FEE
  }

  lemma StepPays(h: Hashes, p: Profile, e: Env, s: Ledger, a: Sealed.Args)
    requires Matched(e) && ValidLedger(s) && s.phase == REFUNDING && RefundingAccepts(h, p, e, s, a)
    ensures PaysBatch(e, s)
  {
    hide Cost, StartAt, EndAt, CountAt, KeyAt, ValidLedger, Continues, TotalIn, TotalOut, BatchSize, IsLast, Pool, NoFamily,
      BatchGross, AmountsPayable, CovInputs;
    ValidParts(s);
    BatchGrossBound(s);
    var first := if IsLast(s) then 0 else 1;
    forall i {:trigger Share(s, i)} | s.cursor <= i < s.cursor + BatchSize(s)
      ensures PaysTo(e.tx, first + i - s.cursor, Share(s, i), KeyAt(s.directory, i))
    {
      assert Refunds(e, first, s, i);
    }
  }

  lemma BatchAccepted(h: Hashes, p: Profile, r: Round, u: Live, s: Ledger, e: Env, v: Verdict)
    requires Holds(h, p, r, u, s) && s.phase == REFUNDING && AcceptedSpend(h, p, r, u, e, v)
    requires Unmatched(h.blake2b, RedeemOf(p, u))
    ensures Matched(e) && ValidLedger(s) && PaysBatch(e, s) && v == RefundVerdict(s)
    ensures !IsLast(s) ==> MovesTo(h, p, r, s, e, RefundMove, v)
  {
    hide LedgerScript, P2sh, Refunding.Spend, ValidLedger, LedgerBytes, Rooted, HasSuffix, ValueOf, Unmatched, WitnessOf,
      MovesTo, RefundStep, IsLast, Execute, EntryOk, FeeMatches, ValidTransaction, RefundVerdict, PaysBatch, RefundingAccepts;
    var m: Module, ledger: Bytes :| Execute(h, p, e, m, ledger) == Val(v);
    OnlyCommittedRuns(h, p, r, u, e, m, ledger);
    AcceptedSpendsState(h, p, r, u, s, e);
    PhaseOfValid(s);
    var a := RefundingExecuted(h, p, e, u.ledger);
    RefundingSpendIs(h, p, e, s, a);
    RefundingStep(h, p, r, s, e, a);
    StepPays(h, p, e, s, a);
  }

  // ---------------------------------------------------------------- whole runs

  /** The refunding state after `j` full batches. */
  function After(s: Ledger, j: nat): Ledger {
    s.(cursor := MAX_REFUND_RECORDS * j)
  }

  /** Accepted spends of the successive state outputs of a refunding round, the last of which ends it. */
  ghost predicate IsRefundRun(h: Hashes, p: Profile, r: Round, us: seq<Live>, steps: seq<Spent>) {
    && |us| == |steps| > 0
    && (forall j {:trigger steps[j]} | 0 <= j < |steps| - 1 :: IsStep(h, p, r, us[j], steps[j], us[j + 1]))
    && var n := |steps| - 1;
    && AcceptedSpend(h, p, r, us[n], steps[n].e, steps[n].verdict)
    && Unmatched(h.blake2b, RedeemOf(p, us[n]))
    && steps[n].verdict.Final?
  }

  lemma AfterCursor(s: Ledger, j: nat)
    requires ValidLedger(After(s, j)) && s.phase == REFUNDING
    ensures !IsLast(After(s, j)) ==> After(s, j).(cursor := After(s, j).cursor + BatchSize(After(s, j))) == After(s, j + 1)
    ensures IsLast(After(s, j)) <==> s.purchaseCount <= MAX_REFUND_RECORDS * (j + 1)
    ensures IsLast(After(s, j)) ==> BatchSize(After(s, j)) == s.purchaseCount - MAX_REFUND_RECORDS * j
    ensures !IsLast(After(s, j)) ==> BatchSize(After(s, j)) == MAX_REFUND_RECORDS
    ensures MAX_REFUND_RECORDS * j < s.purchaseCount
  {
    hide StartAt, EndAt, ValidConfig, Ascending;
  }

  /** After `j` steps the run stands at record `32 j`. */
  lemma {:induction false} RunStands(h: Hashes, p: Profile, r: Round, us: seq<Live>, steps: seq<Spent>, s: Ledger, j: nat)
    requires IsRefundRun(h, p, r, us, steps) && j < |steps|
    requires Holds(h, p, r, us[0], s) && s.phase == REFUNDING && s.cursor == 0
    ensures Holds(h, p, r, us[j], After(s, j)) && ValidLedger(After(s, j)) && Matched(steps[j].e)
    ensures PaysBatch(steps[j].e, After(s, j))
    ensures IsLast(After(s, j)) <==> j == |steps| - 1
  {
    hide ValidLedger, Rooted, AcceptedSpend, Unmatched, PaysBatch, Holds, IsLast, IsRefundRun;
    if j == 0 {
      assert After(s, 0) == s;
    } else {
      RunStands(h, p, r, us, steps, s, j - 1);
      RunMovesOn(h, p, r, us, steps, s, j - 1);
    }
    RunPays(h, p, r, us, steps, s, j);
  }

  /** A step that is not the last moves the run on by one batch. */
  lemma RunMovesOn(h: Hashes, p: Profile, r: Round, us: seq<Live>, steps: seq<Spent>, s: Ledger, j: nat)
    requires IsRefundRun(h, p, r, us, steps) && j + 1 < |steps|
    requires Holds(h, p, r, us[j], After(s, j)) && s.phase == REFUNDING
    ensures Holds(h, p, r, us[j + 1], After(s, j + 1))
  {
    hide ValidLedger, LedgerBytes, Rooted, AcceptedSpend, MovesTo, Unmatched, PaysBatch, Holds, IsLast, RefundVerdict,
      BatchSize;
    var x := steps[j];
    HoldsValid(h, p, r, us[j], After(s, j));
    BatchAccepted(h, p, r, us[j], After(s, j), x.e, x.verdict);
    VerdictOfBatch(After(s, j));
    StepHolds(h, p, r, us[j], After(s, j), x.e, RefundMove, x.verdict, x.daa, x.txId);
    AfterCursor(s, j);
    RefundMoveOf(h, p, r, After(s, j), x.e, x.verdict);
  }

  /** Where the run stands, its next step pays the batch, and only its last step ends the round. */
  lemma RunPays(h: Hashes, p: Profile, r: Round, us: seq<Live>, steps: seq<Spent>, s: Ledger, j: nat)
    requires IsRefundRun(h, p, r, us, steps) && j < |steps|
    requires Holds(h, p, r, us[j], After(s, j)) && s.phase == REFUNDING
    ensures ValidLedger(After(s, j)) && Matched(steps[j].e) && PaysBatch(steps[j].e, After(s, j))
    ensures IsLast(After(s, j)) <==> j == |steps| - 1
  {
    hide ValidLedger, LedgerBytes, Rooted, AcceptedSpend, MovesTo, Unmatched, PaysBatch, Holds, IsLast, RefundVerdict;
    HoldsValid(h, p, r, us[j], After(s, j));
    StepAccepted(h, p, r, us, steps, j);
    BatchAccepted(h, p, r, us[j], After(s, j), steps[j].e, steps[j].verdict);
    VerdictOfBatch(After(s, j));
  }

  lemma HoldsValid(h: Hashes, p: Profile, r: Round, u: Live, s: Ledger)
    requires Holds(h, p, r, u, s)
    ensures ValidLedger(s)
  {
  }

  lemma RefundMoveOf(h: Hashes, p: Profile, r: Round, s: Ledger, e: Env, v: Verdict)
    requires MovesTo(h, p, r, s, e, RefundMove, v)
    ensures Moved(s, RefundMove) == s.(cursor := s.cursor + BatchSize(s))
  {
  }

  lemma VerdictOfBatch(s: Ledger)
    requires ValidLedger(s) && s.phase == REFUNDING
    ensures RefundVerdict(s).Final? <==> IsLast(s)
  {
  }

  lemma StepAccepted(h: Hashes, p: Profile, r: Round, us: seq<Live>, steps: seq<Spent>, j: nat)
    requires IsRefundRun(h, p, r, us, steps) && j < |steps|
    ensures AcceptedSpend(h, p, r, us[j], steps[j].e, steps[j].verdict)
    ensures Unmatched(h.blake2b, RedeemOf(p, us[j]))
    ensures steps[j].verdict.Final? <==> j == |steps| - 1
  {
    hide AcceptedSpend, Unmatched;
    if j < |steps| - 1 {
      assert IsStep(h, p, r, us[j], steps[j], us[j + 1]);
    }
  }

  /** Every step of the run can be summed. */
  predicate Summable(steps: seq<Spent>) {
    forall j {:trigger steps[j]} | 0 <= j < |steps| :: Matched(steps[j].e) && |steps[j].e.tx.outputs| > 0
  }

  /** What the executors of the first `j` steps were paid, brought in, and spent on fees. */
  function Executors(steps: seq<Spent>): int
    requires Summable(steps)
  {
    if steps == [] then 0
    else
      var e := steps[|steps| - 1].e;
      Executors(steps[..|steps| - 1]) + e.tx.outputs[|e.tx.outputs| - 1].value
  }

  function Externals(steps: seq<Spent>): int
    requires Summable(steps)
  {
    if steps == [] then 0 else Externals(steps[..|steps| - 1]) + External(steps[|steps| - 1].e)
  }

  function Fees(steps: seq<Spent>): int {
    if steps == [] then 0 else Fees(steps[..|steps| - 1]) + Fee(steps[|steps| - 1].e)
  }

  lemma {:induction false} ExecutorsSum(h: Hashes, p: Profile, r: Round, us: seq<Live>, steps: seq<Spent>, s: Ledger, j: nat)
    requires IsRefundRun(h, p, r, us, steps) && j <= |steps|
    requires Holds(h, p, r, us[0], s) && s.phase == REFUNDING && s.cursor == 0
    ensures Summable(steps[..j])
    ensures Executors(steps[..j]) + Fees(steps[..j])
         == Externals(steps[..j])
            + (if j < |steps| then MAX_REFUND_RECORDS * j * REFUND_FEE else (s.purchaseCount + 1) * REFUND_FEE)
  {
    hide ValidLedger, LedgerBytes, Rooted, AcceptedSpend, Unmatched, Holds, IsLast, BatchSize, External, Fee, KeyAt, Share,
      IsRefundRun;
    RunLength(h, p, r, us, steps);
    if j > 0 {
      ExecutorsSum(h, p, r, us, steps, s, j - 1);
      RunStands(h, p, r, us, steps, s, j - 1);
      AfterCursor(s, j - 1);
      assert steps[..j][..j - 1] == steps[..j - 1];
      assert steps[..j][j - 1] == steps[j - 1];
    }
  }

  lemma RunLength(h: Hashes, p: Profile, r: Round, us: seq<Live>, steps: seq<Spent>)
    requires IsRefundRun(h, p, r, us, steps)
    ensures |us| == |steps| > 0
  {
  }

  /** Records in the batch of step `j` of `n`. */
  function BatchAt(s: Ledger, n: nat, j: nat): int {
    if j < n - 1 then MAX_REFUND_RECORDS else s.purchaseCount - MAX_REFUND_RECORDS * j
  }

  /** Record `i` is paid by step `i / 32`, after the successor output if there is one. */
  predicate RecordPaidOnce(steps: seq<Spent>, s: Ledger, i: nat)
    requires HasRecords(s.directory, i + 1)
  {
    var j := i / MAX_REFUND_RECORDS;
    && j < |steps|
    && PaysTo(steps[j].e.tx, (if j == |steps| - 1 then 0 else 1) + i % MAX_REFUND_RECORDS, Share(s, i), KeyAt(s.directory, i))
  }

  /** The whole account of a refunding run. */
  predicate PaidExactly(steps: seq<Spent>, s: Ledger) {
    var n := |steps|;
    && s.purchaseCount > 0 && HasRecords(s.directory, s.purchaseCount)
    && n == (s.purchaseCount + MAX_REFUND_RECORDS - 1) / MAX_REFUND_RECORDS
    && (forall i | 0 <= i < s.purchaseCount :: RecordPaidOnce(steps, s, i))
    && 0 < BatchAt(s, n, n - 1)
    && PaysTo(steps[n - 1].e.tx, BatchAt(s, n, n - 1), DEPOSIT - REFUND_FEE, s.ownerKey)
    && (forall j {:trigger steps[j]} | 0 <= j < n :: |steps[j].e.tx.outputs| == 2 + BatchAt(s, n, j))
    && Summable(steps)
    && Executors(steps) == (s.purchaseCount + 1) * REFUND_FEE + Externals(steps) - Fees(steps)
  }

  /** A refunding run from cursor 0 takes exactly ⌈purchaseCount / 32⌉ spends. Record `i` is paid its tickets' price less
      the refund fee, once, by spend `i / 32`; the creator gets the deposit less one refund fee, once, from the last spend.
      All other outputs are one successor for each spend but the last, and one executor output for each; the executors
      share exactly `purchaseCount + 1` refund fees, beyond what they bring in and less the fees. */
  lemma RefundRunIsExact(h: Hashes, p: Profile, r: Round, us: seq<Live>, steps: seq<Spent>, s: Ledger)
    requires IsRefundRun(h, p, r, us, steps)
    requires Holds(h, p, r, us[0], s) && s.phase == REFUNDING && s.cursor == 0
    ensures PaidExactly(steps, s)
  {
    hide ValidLedger, LedgerBytes, Rooted, AcceptedSpend, Unmatched, Holds, IsLast, BatchSize, External, Fee, KeyAt, Share,
      PaysBatch, PaysTo, Pool, Executors, Externals, Fees, IsRefundRun;
    RunLength(h, p, r, us, steps);
    RunCount(h, p, r, us, steps, s);
    RunShapes(h, p, r, us, steps, s);
    forall i | 0 <= i < s.purchaseCount
      ensures RecordPaidOnce(steps, s, i)
    {
      RunRecord(h, p, r, us, steps, s, i / MAX_REFUND_RECORDS, i);
    }
    ExecutorsSum(h, p, r, us, steps, s, |steps|);
    assert steps[..|steps|] == steps;
  }

  lemma RunShapes(h: Hashes, p: Profile, r: Round, us: seq<Live>, steps: seq<Spent>, s: Ledger)
    requires IsRefundRun(h, p, r, us, steps)
    requires Holds(h, p, r, us[0], s) && s.phase == REFUNDING && s.cursor == 0
    ensures forall j {:trigger steps[j]} | 0 <= j < |steps| :: |steps[j].e.tx.outputs| == 2 + BatchAt(s, |steps|, j)
  {
    hide ValidLedger, LedgerBytes, Rooted, AcceptedSpend, Unmatched, Holds, IsLast, BatchSize, PaysBatch, IsRefundRun;
    RunLength(h, p, r, us, steps);
    forall j {:trigger steps[j]} | 0 <= j < |steps|
      ensures |steps[j].e.tx.outputs| == 2 + BatchAt(s, |steps|, j)
    {
      RunStands(h, p, r, us, steps, s, j);
      AfterCursor(s, j);
      BatchShape(steps[j].e, After(s, j));
    }
  }

  /** The number of steps. */
  lemma RunCount(h: Hashes, p: Profile, r: Round, us: seq<Live>, steps: seq<Spent>, s: Ledger)
    requires IsRefundRun(h, p, r, us, steps)
    requires Holds(h, p, r, us[0], s) && s.phase == REFUNDING && s.cursor == 0
    ensures s.purchaseCount > 0 && HasRecords(s.directory, s.purchaseCount)
    ensures MAX_REFUND_RECORDS * (|steps| - 1) < s.purchaseCount <= MAX_REFUND_RECORDS * |steps|
    ensures PaysTo(steps[|steps| - 1].e.tx, BatchAt(s, |steps|, |steps| - 1), DEPOSIT - REFUND_FEE, s.ownerKey)
  {
    hide ValidLedger, LedgerBytes, Rooted, AcceptedSpend, Unmatched, Holds, IsLast, BatchSize, PaysBatch, IsRefundRun, PaysTo,
      ValueOf;
    var n := |steps| - 1;
    RunLength(h, p, r, us, steps);
    HoldsValid(h, p, r, us[0], s);
    ValidParts(s);
    RunStands(h, p, r, us, steps, s, n);
    AfterCursor(s, n);
    LastShape(steps[n].e, After(s, n));
  }

  lemma RunRecord(h: Hashes, p: Profile, r: Round, us: seq<Live>, steps: seq<Spent>, s: Ledger, j: nat, i: nat)
    requires IsRefundRun(h, p, r, us, steps) && j < |steps|
    requires Holds(h, p, r, us[0], s) && s.phase == REFUNDING && s.cursor == 0
    requires MAX_REFUND_RECORDS * j <= i < MAX_REFUND_RECORDS * (j + 1) && i < s.purchaseCount
    ensures HasRecords(s.directory, i + 1)
    ensures PaysTo(steps[j].e.tx, (if j == |steps| - 1 then 0 else 1) + i - MAX_REFUND_RECORDS * j, Share(s, i),
                   KeyAt(s.directory, i))
  {
    hide ValidLedger, LedgerBytes, Rooted, AcceptedSpend, Unmatched, Holds, IsLast, BatchSize, PaysBatch, IsRefundRun, KeyAt,
      Share, PaysTo, ValueOf;
    RunLength(h, p, r, us, steps);
    HoldsValid(h, p, r, us[0], s);
    ValidParts(s);
    RunStands(h, p, r, us, steps, s, j);
    AfterCursor(s, j);
    RecordPaid(steps[j].e, s, j, i);
  }

  lemma BatchShape(e: Env, s: Ledger)
    requires Matched(e) && ValidLedger(s) && s.phase == REFUNDING && PaysBatch(e, s)
    ensures |e.tx.outputs| == BatchSize(s) + 2
  {
  }

  lemma LastShape(e: Env, s: Ledger)
    requires Matched(e) && ValidLedger(s) && s.phase == REFUNDING && PaysBatch(e, s) && IsLast(s)
    ensures PaysTo(e.tx, BatchSize(s), DEPOSIT - REFUND_FEE, s.ownerKey)
  {
  }

  lemma RecordPaid(e: Env, s: Ledger, j: nat, i: nat)
    requires Matched(e) && ValidLedger(After(s, j)) && s.phase == REFUNDING && PaysBatch(e, After(s, j))
    requires MAX_REFUND_RECORDS * j <= i < MAX_REFUND_RECORDS * j + BatchSize(After(s, j))
    requires HasRecords(s.directory, i + 1)
    ensures PaysTo(e.tx, (if IsLast(After(s, j)) then 0 else 1) + i - MAX_REFUND_RECORDS * j, Share(s, i), KeyAt(s.directory, i))
  {
    hide IsLast, BatchSize, Pool, KeyAt, CountAt, Cost, External, Fee;
    assert Share(After(s, j), i) == Share(s, i);
  }
}
