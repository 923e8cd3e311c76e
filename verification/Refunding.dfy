/** contracts/refunding.sil: refunds in batches. */
module Refunding {
  import opened Results
  import opened Bytes
  import opened Layout
  import opened Scripts
  import opened Tx
  import opened Frames
  import opened Sil
  import Sealed

  type Args = Sealed.Args

  function PaidTickets(ledger: Bytes): Run<nat> {
    var cursor :- U32(ledger, OFFSET_REFUND_CURSOR);
    if cursor > 0 then Sealed.RecordEnd(ledger, cursor - 1) else Val(0)
  }

  function CheckLedger(e: Env, ledger: Bytes): Run<()>
    requires Matched(e) && |ledger| >= HEADER_BYTES
  {
    var phase :- U32(ledger, OFFSET_PHASE);
    var _ :- Require(ledger[OFFSET_MAGIC..OFFSET_PHASE] == MAGIC && phase == 5);
    var count :- U32(ledger, OFFSET_PURCHASE_COUNT);
    var _ :- Require(|ledger| == HEADER_BYTES + count * RECORD_BYTES);
    var cursor :- U32(ledger, OFFSET_REFUND_CURSOR);
    var _ :- Require(cursor < count);
    var sold :- U32(ledger, OFFSET_SOLD);
    var paid :- PaidTickets(ledger);
    var price :- U63(ledger, OFFSET_TICKET_PRICE);
    var owed :- Int(Cost(sold - paid, price));
    var _ :- Require(e.utxos[0].value == DEPOSIT + owed);
    Val(())
  }

  /** Four bytes as a signed script number. */
  function BinToNum(part: Bytes): int
    requires |part| == 4
  {
    if part[3] < 128 then FromLe(part) else -(FromLe(part[3 := part[3] - 128]) as int)
  }

  /** What one turn of the batch loop requires of record `at` and output `index`; the record's end is the result. */
  function RefundRecord(e: Env, ledger: Bytes, at: nat, index: nat, previousEnd: int, price: int): Run<int> {
    var record :- Slice(ledger, at, at + RECORD_BYTES);
    var end := BinToNum(record[..4]);
    var _ :- Require(end > previousEnd);
    var _ :- Require(index < |e.tx.outputs|);
    var gross :- Int(Cost(end - previousEnd, price));
    var _ :- Require(e.tx.outputs[index].value == gross - REFUND_FEE);
    var _ :- Require(e.tx.outputs[index].scriptPublicKey == P2pk(record[4..]));
    var _ :- Require(CovenantIdOf(e.tx.outputs[index]) == ZERO);
    Val(end)
  }

  /** The first `n` turns of the batch loop; the result is the end reached. */
  function RefundRecords(e: Env, ledger: Bytes, cursor: nat, first: nat, initialEnd: int, price: int, n: nat): Run<int> {
    if n == 0 then Val(initialEnd)
    else
      var previousEnd :- RefundRecords(e, ledger, cursor, first, initialEnd, price, n - 1);
      RefundRecord(e, ledger, HEADER_BYTES + (cursor + n - 1) * RECORD_BYTES, first + n - 1, previousEnd, price)
  }

  /** The batch loop, walking an offset through the raw directory. */
  method RefundLoop(e: Env, ledger: Bytes, cursor: nat, first: nat, initialEnd: int, price: int, batch: nat)
    returns (r: Run<int>)
    ensures r == RefundRecords(e, ledger, cursor, first, initialEnd, price, batch)
  {
    var previousEnd, off := initialEnd, HEADER_BYTES + cursor * RECORD_BYTES;
    for turn := 0 to batch
      invariant off == HEADER_BYTES + (cursor + turn) * RECORD_BYTES
      invariant RefundRecords(e, ledger, cursor, first, initialEnd, price, turn) == Val(previousEnd)
    {
      match RefundRecord(e, ledger, off, first + turn, previousEnd, price) {
        case Abort =>
          RefundAborts(e, ledger, cursor, first, initialEnd, price, turn + 1, batch);
          return Abort;
        case Val(end) => previousEnd := end;
      }
      off := off + RECORD_BYTES;
    }
    r := Val(previousEnd);
  }

  lemma {:induction false} RefundAborts(e: Env, ledger: Bytes, cursor: nat, first: nat, initialEnd: int, price: int, m: nat, n: nat)
    requires m <= n && RefundRecords(e, ledger, cursor, first, initialEnd, price, m).Abort?
    ensures RefundRecords(e, ledger, cursor, first, initialEnd, price, n).Abort?
    decreases n
  {
    if m < n {
      RefundAborts(e, ledger, cursor, first, initialEnd, price, m, n - 1);
    }
  }

  function Min(a: int, b: int): int { if a < b then a else b }

  function Batch(h: Hashes, e: Env, ledger: Bytes, a: Args, tail: Bytes): Run<Verdict>
    requires Matched(e) && |ledger| >= HEADER_BYTES && e.utxos[0].covenantId.Some?
  {
    var id := e.utxos[0].covenantId.value;
    var external := TotalIn(e.utxos) - e.utxos[0].value;
    var _ :- Require(a.nextTail == [] && a.data == []);
    var cursor :- U32(ledger, OFFSET_REFUND_CURSOR);
    var count :- U32(ledger, OFFSET_PURCHASE_COUNT);
    var _ :- Require(cursor < count);
    var remaining := count - cursor;
    var batch := Min(remaining, MAX_REFUND_RECORDS);
    var last := batch == remaining;
    var initialEnd :- PaidTickets(ledger);
    var price :- U63(ledger, OFFSET_TICKET_PRICE);
    var end :- RefundRecords(e, ledger, cursor, if last then 0 else 1, initialEnd, price, batch);
    var gross :- Int(Cost(end - initialEnd, price));
    var _ :- Require(|e.tx.outputs| == batch + 2);
    var pool := batch * REFUND_FEE + if last then REFUND_FEE else 0;
    var _ :- Require(Ordinary(e, batch + 1, external + pool - a.fee, a.actorPk));
    if last then
      var sold :- U32(ledger, OFFSET_SOLD);
      var _ :- Require(end == sold);
      var _ :- Require(TerminalShape(e, id, batch + 2));
      var _ :- Require(Ordinary(e, batch, DEPOSIT - REFUND_FEE, ledger[OFFSET_OWNER_KEY..HEADER_BYTES]));
      Val(Final(REFUNDED))
    else
      var next :- Set4(ledger, OFFSET_REFUND_CURSOR, cursor + batch);
      var _ :- Successor(h, e, id, next, tail, e.utxos[0].value - gross);
      Val(Continue(RefundingModule, next))
  }

  /** `entry spend`. */
  function Spend(h: Hashes, e: Env, ledger: Bytes, a: Args): Run<Verdict>
    requires Matched(e)
  {
    var tail :- Entry(h, e, ledger, 34, a.programTailBytes, a.actorPk);
    var _ :- CheckLedger(e, ledger);
    var _ :- Require(FeeMatches(e, a.fee));
    var _ :- Require(a.action == 10);
    Batch(h, e, ledger, a, tail)
  }

  /** `entry spend` as the template runs it: the fee loops, then the batch loop over an advancing directory offset. */
  method RunSpend(h: Hashes, e: Env, ledger: Bytes, a: Args) returns (r: Run<Verdict>)
    requires Matched(e)
    ensures r == Spend(h, e, ledger, a)
  {
    hide Entry, CheckLedger, FeeMatches, PaidTickets, RefundRecords, U32, U63, Set4, Successor, Ordinary, TerminalShape,
      TotalIn, Cost;
    var tail :- Entry(h, e, ledger, 34, a.programTailBytes, a.actorPk);
    EntryCovenant(h, e, ledger, 34, a.programTailBytes, a.actorPk);
    var id := e.utxos[0].covenantId.value;
    var _ :- CheckLedger(e, ledger);
    var honest := CheckFee(e, a.fee);
    var _ :- Require(honest);
    var _ :- Require(a.action == 10);
    var external := TotalIn(e.utxos) - e.utxos[0].value;
    var _ :- Require(a.nextTail == [] && a.data == []);
    var cursor :- U32(ledger, OFFSET_REFUND_CURSOR);
    var count :- U32(ledger, OFFSET_PURCHASE_COUNT);
    var _ :- Require(cursor < count);
    var remaining := count - cursor;
    var batch := if remaining > MAX_REFUND_RECORDS then MAX_REFUND_RECORDS else remaining;
    var last := batch == remaining;
    var initialEnd :- PaidTickets(ledger);
    var price :- U63(ledger, OFFSET_TICKET_PRICE);
    var end :- RefundLoop(e, ledger, cursor, if last then 0 else 1, initialEnd, price, batch);
    var gross :- Int(Cost(end - initialEnd, price));
    var _ :- Require(|e.tx.outputs| == batch + 2);
    var pool := batch * REFUND_FEE;
    if last {
      pool := pool + REFUND_FEE;
    }
    var _ :- Require(Ordinary(e, batch + 1, external + pool - a.fee, a.actorPk));
    if last {
      var sold :- U32(ledger, OFFSET_SOLD);
      var _ :- Require(end == sold);
      var _ :- Require(TerminalShape(e, id, batch + 2));
      var _ :- Require(Ordinary(e, batch, DEPOSIT - REFUND_FEE, ledger[OFFSET_OWNER_KEY..HEADER_BYTES]));
      r := Val(Final(REFUNDED));
    } else {
      var next :- Set4(ledger, OFFSET_REFUND_CURSOR, cursor + batch);
      var _ :- Successor(h, e, id, next, tail, e.utxos[0].value - gross);
      r := Val(Continue(RefundingModule, next));
    }
  }

  lemma EntryCovenant(h: Hashes, e: Env, ledger: Bytes, outputLimit: int, tailBytes: int, actorPk: Bytes)
    requires Matched(e) && Entry(h, e, ledger, outputLimit, tailBytes, actorPk).Val?
    ensures e.utxos[0].covenantId.Some? && |ledger| >= HEADER_BYTES
  {
    hide AuthenticatedTail, CovInputs;
  }

  // ---------------------------------------------------------------- any ledger bytes

  /** What REFUNDING checks of any ledger bytes before it looks at the batch: the magic and the phase, one record for each
      purchase, a cursor among them, and the deposit and the price of every ticket not repaid yet in the state. */
  lemma LedgerChecked(e: Env, ledger: Bytes)
    requires Matched(e) && |ledger| >= HEADER_BYTES && CheckLedger(e, ledger).Val?
    ensures ledger[..4] == [0x4b, 0x57, 0x32, 0x31] && FromLe(ledger[4..8]) == 5
    ensures |ledger| == 80 + 36 * FromLe(ledger[40..44]) && FromLe(ledger[44..48]) < FromLe(ledger[40..44])
    ensures var paid := Sealed.EndBefore(ledger, FromLe(ledger[44..48]));
            e.utxos[0].value == 400_000_000 + (FromLe(ledger[36..40]) - paid) * FromLe(ledger[8..16])
  {
    hide FromLe;
    assert ledger[OFFSET_MAGIC..OFFSET_PHASE] == ledger[..4];
    var cursor := U32(ledger, OFFSET_REFUND_CURSOR).value;
    if cursor > 0 {
      Sealed.RecordBytesOf(ledger, cursor - 1);
    }
  }

  /** Output `index` repays the tickets from `before` to `end` to the key of the record at `at`. */
  predicate Repays(e: Env, ledger: Bytes, at: nat, index: nat, before: int, end: int, price: int) {
    && at + 36 <= |ledger| && index < |e.tx.outputs| && before < end
    && e.tx.outputs[index].value == (end - before) * price - 2_000_000
    && e.tx.outputs[index].scriptPublicKey == Spk(0, [0x20] + ledger[at + 4..at + 36] + [0xac])
  }

  lemma RecordRepays(e: Env, ledger: Bytes, at: nat, index: nat, previousEnd: int, price: int)
    requires RefundRecord(e, ledger, at, index, previousEnd, price).Val?
    ensures Repays(e, ledger, at, index, previousEnd, RefundRecord(e, ledger, at, index, previousEnd, price).value, price)
  {
    hide BinToNum;
    assert ledger[at..at + 36][4..] == ledger[at + 4..at + 36];
  }

  lemma {:induction false} RecordsRepay(e: Env, ledger: Bytes, cursor: nat, first: nat, initialEnd: int, price: int, n: nat)
    returns (ends: seq<int>)
    requires RefundRecords(e, ledger, cursor, first, initialEnd, price, n).Val?
    ensures |ends| == n + 1 && ends[0] == initialEnd
    ensures ends[n] == RefundRecords(e, ledger, cursor, first, initialEnd, price, n).value
    ensures forall i | 0 <= i < n :: Repays(e, ledger, 80 + (cursor + i) * 36, first + i, ends[i], ends[i + 1], price)
  {
    hide RefundRecord, Repays;
    if n == 0 {
      ends := [initialEnd];
    } else {
      var before := RecordsRepay(e, ledger, cursor, first, initialEnd, price, n - 1);
      RecordRepays(e, ledger, HEADER_BYTES + (cursor + n - 1) * RECORD_BYTES, first + n - 1, before[n - 1], price);
      ends := before + [RefundRecords(e, ledger, cursor, first, initialEnd, price, n).value];
    }
  }

  /** The ends that a batch runs through, from any ledger bytes: they rise, each record's output repays its stretch to its key,
      and the batch either reaches the tickets sold and ends, or leaves the rest of the value in the successor. */
  predicate BatchRuns(e: Env, ledger: Bytes, cursor: nat, batch: nat, last: bool, price: int, ends: seq<int>) {
    var first := if last then 0 else 1;
    && |ends| == batch + 1 && |e.tx.outputs| == batch + 2
    && (forall i | 0 <= i < batch :: Repays(e, ledger, 80 + (cursor + i) * 36, first + i, ends[i], ends[i + 1], price))
    && (if last then U32(ledger, OFFSET_SOLD) == Val(ends[batch]) && e.tx.outputs[batch].value == 398_000_000
        else e.tx.outputs[0].value == StateValue(e) - (ends[batch] - ends[0]) * price)
  }

  function StateValue(e: Env): int {
    if e.utxos == [] then 0 else e.utxos[0].value
  }

  /** No batch is accepted of any ledger bytes but so, whether or not the ledger is valid. */
  lemma BatchOfAnyBytes(h: Hashes, e: Env, ledger: Bytes, a: Args, tail: Bytes)
    returns (cursor: nat, batch: nat, last: bool, price: nat, ends: seq<int>)
    requires Matched(e) && |ledger| >= HEADER_BYTES && e.utxos[0].covenantId.Some? && Batch(h, e, ledger, a, tail).Val?
    ensures U32(ledger, OFFSET_REFUND_CURSOR) == Val(cursor) && U63(ledger, OFFSET_TICKET_PRICE) == Val(price)
    ensures U32(ledger, OFFSET_PURCHASE_COUNT).Val? && 0 < batch <= 32
    ensures var left := U32(ledger, OFFSET_PURCHASE_COUNT).value - cursor; last == (left <= 32) && batch == if left <= 32 then left else 32
    ensures BatchRuns(e, ledger, cursor, batch, last, price, ends) && PaidTickets(ledger) == Val(ends[0])
    ensures Batch(h, e, ledger, a, tail).value.Final? <==> last
  {
    hide U32, U63, Set4, Successor, TerminalShape, RefundRecords, PaidTickets, Repays, TotalIn, P2pk;
    cursor, price := U32(ledger, OFFSET_REFUND_CURSOR).value, U63(ledger, OFFSET_TICKET_PRICE).value;
    var left := U32(ledger, OFFSET_PURCHASE_COUNT).value - cursor;
    last, batch := left <= 32, if left <= 32 then left else 32;
    ends := RecordsRepay(e, ledger, cursor, if last then 0 else 1, PaidTickets(ledger).value, price, batch);
    if !last {
      var next := Set4(ledger, OFFSET_REFUND_CURSOR, cursor + batch).value;
      SuccessorMeans(h, e, e.utxos[0].covenantId.value, next, tail, e.utxos[0].value - (ends[batch] - ends[0]) * price);
    }
  }
}
