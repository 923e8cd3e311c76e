/** contracts/sealed.sil: the draw and the timeout. */
module Sealed {
  import opened Results
  import opened Bytes
  import opened Layout
  import opened Scripts
  import opened Tx
  import opened Frames
  import opened Sil

  datatype Args = Args(action: int, programTailBytes: int, nextTail: Bytes, data: Bytes, actorPk: Bytes, fee: int)

  function RecordEnd(ledger: Bytes, record: int): Run<nat> {
    var count :- U32(ledger, OFFSET_PURCHASE_COUNT);
    var _ :- Require(0 <= record < count);
    var end :- U32(ledger, HEADER_BYTES + record * RECORD_BYTES);
    var sold :- U32(ledger, OFFSET_SOLD);
    var _ :- Require(0 < end <= sold);
    Val(end)
  }

  function RecordKey(ledger: Bytes, record: int): Run<Bytes> {
    var count :- U32(ledger, OFFSET_PURCHASE_COUNT);
    var _ :- Require(0 <= record < count);
    Slice(ledger, HEADER_BYTES + record * RECORD_BYTES + RECORD_OFFSET_BUYER_KEY,
          HEADER_BYTES + (record + 1) * RECORD_BYTES)
  }

  function CheckLedger(e: Env, ledger: Bytes): Run<()>
    requires Matched(e) && |ledger| >= HEADER_BYTES
  {
    var phase :- U32(ledger, OFFSET_PHASE);
    var _ :- Require(ledger[OFFSET_MAGIC..OFFSET_PHASE] == MAGIC && phase == 2);
    var count :- U32(ledger, OFFSET_PURCHASE_COUNT);
    var _ :- Require(|ledger| == HEADER_BYTES + count * RECORD_BYTES);
    var sold :- U32(ledger, OFFSET_SOLD);
    var minTickets :- U32(ledger, OFFSET_MIN_TICKETS);
    var price :- U63(ledger, OFFSET_TICKET_PRICE);
    var gross :- Int(Cost(sold, price));
    var _ :- Require(sold >= minTickets && e.utxos[0].value == DEPOSIT + gross);
    Val(())
  }

  /** `openSeq`: the commitment that a half of the opening, from `base` on, opens above its parent's. */
  function OpenSeq(h: Hashes, proof: Bytes, base: nat, parentSeq: Bytes): Digest
    requires base + 88 <= |proof|
  {
    var ctx := h.domain(MERGESET_CONTEXT, proof[base + 64..base + 88]);
    var pc := h.domain(MERKLE_BRANCH, ctx + proof[base + 32..base + 64]);
    var root := h.domain(MERKLE_BRANCH, proof[base..base + 32] + pc);
    h.domain(MERKLE_BRANCH, parentSeq + root)
  }

  /** The checks on the opening, then the seed. */
  function DrawSeed(h: Hashes, e: Env, ledger: Bytes, proof: Bytes): Run<Digest>
    requires Matched(e) && |ledger| >= HEADER_BYTES && e.utxos[0].covenantId.Some?
  {
    var _ :- Require(|proof| == 240);
    var d := e.utxos[0].daa;
    var _ :- Require(0 <= d < DAA_LIMIT - TIMEOUT_DELAY);
    var _ :- Require(AgedBy(e, DRAW_DELAY));
    var boundary := d + DRAW_DELAY;
    var pd :- U63(proof, 224);
    var td :- U63(proof, 104);
    var _ :- Require(pd < boundary && boundary <= td < DAA_LIMIT);
    var targetBlue :- U63(proof, 112);
    var parentBlue :- U63(proof, 232);
    var _ :- Require(targetBlue > parentBlue);
    var _ :- U63(proof, 96);
    var _ :- U63(proof, 216);
    var pseq := OpenSeq(h, proof, 152, proof[120..152]);
    var tseq := OpenSeq(h, proof, 32, pseq);
    var thash := proof[..32];
    var _ :- Require(e.seqCommit(thash) == Some(tseq));
    var frozen := h.blake2b(ledger[OFFSET_TICKET_PRICE..OFFSET_REFUND_CURSOR] + ledger[HEADER_BYTES..]);
    var anchor := e.tx.inputs[0].previousOutpoint;
    var _ :- Require(anchor.index >= 0);
    Val(h.blake2b(Ascii("KASWIN_V2_DRAW") + e.utxos[0].covenantId.value + anchor.transactionId + Le(anchor.index, 4) + frozen
                  + Le(boundary, 8) + thash + tseq))
  }

  /** `sample`: the first seven bytes and a zero sign byte, as a number. */
  function Sample(h: Hashes, seed: Digest): nat {
    FromLe(h.blake2b(Ascii("KASWIN_V2_SAMPLE") + seed + [0, 0, 0, 0, 0, 0, 0, 0])[..7] + [0])
  }

  /** `limit`. */
  function Limit(sold: nat): int
    requires sold > 0
  {
    72057594037927936 - 72057594037927936 % sold
  }

  function Payout(e: Env, ledger: Bytes, ticket: int, hint: nat, executor: Bytes, fee: int): Run<Verdict>
    requires Matched(e) && |ledger| >= HEADER_BYTES && e.utxos[0].covenantId.Some?
  {
    var _ :- Require(|e.tx.inputs| == 1);
    var _ :- Require(fee <= MAX_PAY_FEE);
    var begin :- if hint > 0 then RecordEnd(ledger, hint - 1) else Val(0);
    var end :- RecordEnd(ledger, hint);
    var _ :- Require(begin <= ticket < end);
    var price :- U63(ledger, OFFSET_TICKET_PRICE);
    var sold :- U32(ledger, OFFSET_SOLD);
    var gross :- Int(Cost(sold, price));
    var prize := gross - FINALIZER - fee;
    var _ :- Require(prize >= MIN_PRICE);
    var _ :- Require(TerminalShape(e, e.utxos[0].covenantId.value, 3));
    var winner :- RecordKey(ledger, hint);
    var _ :- Require(Ordinary(e, 0, prize, winner));
    var _ :- Require(Ordinary(e, 1, DEPOSIT, ledger[OFFSET_OWNER_KEY..HEADER_BYTES]));
    var _ :- Require(Ordinary(e, 2, FINALIZER, executor));
    Val(Final(PAID))
  }

  function Draw(h: Hashes, e: Env, ledger: Bytes, a: Args): Run<Verdict>
    requires Matched(e) && |ledger| >= HEADER_BYTES && e.utxos[0].covenantId.Some?
  {
    var _ :- Require(a.nextTail == []);
    var _ :- Require(|a.data| == 244);
    var seed :- DrawSeed(h, e, ledger, a.data[..240]);
    var value := Sample(h, seed);
    var sold :- U32(ledger, OFFSET_SOLD);
    var _ :- Require(sold > 0);
    var _ :- Require(value < Limit(sold));
    var hint :- U32(a.data, 240);
    Payout(e, ledger, value % sold, hint, a.actorPk, a.fee)
  }

  function Timeout(h: Hashes, p: Profile, e: Env, ledger: Bytes, a: Args): Run<Verdict>
    requires Matched(e) && e.utxos[0].covenantId.Some?
  {
    var _ :- Require(a.data == []);
    var _ :- Require(0 <= e.utxos[0].daa < DAA_LIMIT - TIMEOUT_DELAY);
    var _ :- Require(AgedBy(e, TIMEOUT_DELAY));
    var next :- Set4(ledger, OFFSET_PHASE, REFUNDING);
    var _ :- Require(TemplateHash(h, a.nextTail) == TemplateHash(h, p.refunding.tail));
    var _ :- Successor(h, e, e.utxos[0].covenantId.value, next, a.nextTail, e.utxos[0].value);
    Val(Continue(RefundingModule, next))
  }

  /** `entry spend`. */
  function Spend(h: Hashes, p: Profile, e: Env, ledger: Bytes, a: Args): Run<Verdict>
    requires Matched(e)
  {
    var _ :- Entry(h, e, ledger, 3, a.programTailBytes, a.actorPk);
    var _ :- CheckLedger(e, ledger);
    var _ :- Require(FeeMatches(e, a.fee));
    if a.action == 4 then Draw(h, e, ledger, a)
    else if a.action == 9 then Timeout(h, p, e, ledger, a)
    else Abort
  }

  // ---------------------------------------------------------------- any ledger bytes

  /** The end that record `i` of some ledger bytes holds, zero before the first. */
  function EndBefore(ledger: Bytes, i: nat): int {
    if i == 0 || 80 + 36 * i > |ledger| then 0 else FromLe(ledger[80 + 36 * (i - 1)..84 + 36 * (i - 1)])
  }

  /** Output `index` is an ordinary one of this amount to this key. */
  predicate PaysKey(e: Env, index: nat, amount: int, key: Bytes) {
    && index < |e.tx.outputs| && 0 < amount && e.tx.outputs[index].value == amount
    && e.tx.outputs[index].scriptPublicKey == Spk(0, [0x20] + key + [0xac])
  }

  /** What SEALED checks of any ledger bytes before it looks at the action: the magic and the phase, one record for each purchase,
      enough tickets, and the deposit and the price of every ticket in the state. */
  lemma LedgerChecked(e: Env, ledger: Bytes)
    requires Matched(e) && |ledger| >= HEADER_BYTES && CheckLedger(e, ledger).Val?
    ensures ledger[..4] == [0x4b, 0x57, 0x32, 0x31] && FromLe(ledger[4..8]) == 2
    ensures |ledger| == 80 + 36 * FromLe(ledger[40..44]) && FromLe(ledger[24..28]) <= FromLe(ledger[36..40])
    ensures e.utxos[0].value == 400_000_000 + FromLe(ledger[36..40]) * FromLe(ledger[8..16])
  {
    hide FromLe;
    assert ledger[OFFSET_MAGIC..OFFSET_PHASE] == ledger[..4];
  }

  /** No payout is accepted of any ledger bytes but to the record at the hint, whose window holds the ticket, with the creator and
      the executor after it. */
  lemma PayoutOfAnyBytes(e: Env, ledger: Bytes, ticket: int, hint: nat, executor: Bytes, fee: int)
    requires Matched(e) && |ledger| >= HEADER_BYTES && e.utxos[0].covenantId.Some?
    requires Payout(e, ledger, ticket, hint, executor, fee).Val?
    ensures Payout(e, ledger, ticket, hint, executor, fee) == Val(Final(PAID))
    ensures |e.tx.inputs| == 1 && |e.tx.outputs| == 3 && fee <= 50_000_000 && hint < FromLe(ledger[40..44])
    ensures 80 + 36 * (hint + 1) <= |ledger|
    ensures EndBefore(ledger, hint) <= ticket < EndBefore(ledger, hint + 1) <= FromLe(ledger[36..40])
    ensures var prize := FromLe(ledger[36..40]) * FromLe(ledger[8..16]) - 100_000_000 - fee;
            prize >= 100_000_000 && PaysKey(e, 0, prize, ledger[84 + 36 * hint..116 + 36 * hint])
    ensures PaysKey(e, 1, 400_000_000, ledger[48..80]) && PaysKey(e, 2, 100_000_000, executor)
    ensures forall i | 0 <= i < 3 && e.tx.outputs[i].covenant.Some? :: e.tx.outputs[i].covenant.value.covenantId == ZERO
  {
    hide FromLe, NoFamily, ZERO;
    RecordBytesOf(ledger, hint);
    if hint > 0 {
      RecordBytesOf(ledger, hint - 1);
    }
    forall i | 0 <= i < 3
      ensures CovenantIdOf(e.tx.outputs[i]) == ZERO
    {
      assert i == 0 || i == 1 || i == 2;
    }
  }

  lemma RecordBytesOf(ledger: Bytes, i: nat)
    requires |ledger| >= HEADER_BYTES
    ensures RecordEnd(ledger, i).Val? ==>
              && 84 + 36 * i <= |ledger| && RecordEnd(ledger, i).value == FromLe(ledger[80 + 36 * i..84 + 36 * i])
              && 0 < RecordEnd(ledger, i).value <= FromLe(ledger[36..40]) && i < FromLe(ledger[40..44])
    ensures RecordKey(ledger, i).Val? ==> 116 + 36 * i <= |ledger| && RecordKey(ledger, i).value == ledger[84 + 36 * i..116 + 36 * i]
  {
    hide FromLe;
  }
}
