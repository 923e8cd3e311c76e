/** contracts/open.sil: purchases and closing. */
module Open {
  import opened Results
  import opened Bytes
  import opened Layout
  import opened Scripts
  import opened Tx
  import opened Frames
  import opened Sil

  datatype Args = Args(action: int, originTxId: Bytes, originIndex: int, programTailBytes: int,
                       nextTail: Bytes, data: Bytes, actorPk: Bytes, fee: int)

  /** The zero-ticket ledger rebuilt from any OPEN ledger of the round. */
  function GenesisLedger(ledger: Bytes): Bytes
    requires |ledger| >= HEADER_BYTES
  {
    ledger[OFFSET_MAGIC..OFFSET_PHASE] + [1, 0, 0, 0] + ledger[OFFSET_TICKET_PRICE..OFFSET_SOLD] + Zeros(12)
    + ledger[OFFSET_OWNER_KEY..HEADER_BYTES]
  }

  /** The covenant id recomputed from the origin and the genesis script. */
  function CheckRoot(h: Hashes, e: Env, ledger: Bytes, a: Args, tail: Bytes): Run<()>
    requires Matched(e) && e.utxos[0].covenantId.Some? && |ledger| >= HEADER_BYTES
  {
    var _ :- Require(|a.originTxId| == 32 && a.originTxId != ZERO);
    var _ :- Require(0 <= a.originIndex <= 0x7fff_ffff);
    var _ :- Require(|tail| > 0 && tail[0] == 0x6c);
    var script :- ScriptFor(GenesisLedger(ledger), tail);
    var spk := P2sh(h.blake2b(script));
    var preimage := a.originTxId + Le(a.originIndex, 4) + [1, 0, 0, 0, 0, 0, 0, 0] + [0, 0, 0, 0]
                    + Le(DEPOSIT, 8) + Le(spk.version, 2) + [0x23, 0, 0, 0, 0, 0, 0, 0] + spk.script;
    var _ :- Require(h.covenantId(preimage) == e.utxos[0].covenantId.value);
    Val(())
  }

  function CheckLedger(ledger: Bytes): Run<()> {
    var _ :- Require(LedgerSized(ledger));
    var phase :- U32(ledger, OFFSET_PHASE);
    var _ :- Require(ledger[OFFSET_MAGIC..OFFSET_PHASE] == MAGIC && phase == 1);
    var cap :- U32(ledger, OFFSET_TICKET_CAP);
    var _ :- Require(3 <= cap <= MAX_TICKETS);
    var purchaseCap :- U32(ledger, OFFSET_PURCHASE_CAP);
    var _ :- Require(1 <= purchaseCap <= MAX_PURCHASES);
    var minTickets :- U32(ledger, OFFSET_MIN_TICKETS);
    var _ :- Require(3 <= minTickets <= cap);
    var price :- U63(ledger, OFFSET_TICKET_PRICE);
    var _ :- Require(MIN_PRICE <= price <= (VALUE_LIMIT - DEPOSIT) / cap);
    var close :- U63(ledger, OFFSET_CLOSE_ELIGIBLE_DAA);
    var _ :- Require(0 < close < DAA_LIMIT - TIMEOUT_DELAY);
    var count :- U32(ledger, OFFSET_PURCHASE_COUNT);
    var _ :- Require(|ledger| == HEADER_BYTES + count * RECORD_BYTES);
    Val(())
  }

  function Buy(h: Hashes, e: Env, ledger: Bytes, a: Args, tail: Bytes): Run<Verdict>
    requires Matched(e) && e.utxos[0].covenantId.Some?
  {
    var _ :- Require(a.nextTail == []);
    var _ :- Require(|a.data| == 4 && |e.tx.inputs| >= 2);
    var quantity :- U32(a.data, 0);
    var sold :- U32(ledger, OFFSET_SOLD);
    var count :- U32(ledger, OFFSET_PURCHASE_COUNT);
    var cap :- U32(ledger, OFFSET_TICKET_CAP);
    var _ :- Require(0 < quantity <= cap - sold);
    var purchaseCap :- U32(ledger, OFFSET_PURCHASE_CAP);
    var _ :- Require(count < purchaseCap);
    var price :- U63(ledger, OFFSET_TICKET_PRICE);
    var cost :- Int(Cost(quantity, price));
    var sale :- Set4(ledger, OFFSET_SOLD, sold + quantity);
    var counted :- Set4(sale, OFFSET_PURCHASE_COUNT, count + 1);
    var next := counted + Le(sold + quantity, 4) + a.actorPk;
    var value :- Int(e.utxos[0].value + cost);
    var _ :- Successor(h, e, e.utxos[0].covenantId.value, next, tail, value);
    Val(Continue(OpenModule, next))
  }

  function Close(h: Hashes, p: Profile, e: Env, ledger: Bytes, a: Args): Run<Verdict>
    requires Matched(e) && e.utxos[0].covenantId.Some? && |ledger| >= HEADER_BYTES
  {
    var id := e.utxos[0].covenantId.value;
    var _ :- Require(a.data == [] && |e.tx.inputs| >= 2);
    var sold :- U32(ledger, OFFSET_SOLD);
    var cap :- U32(ledger, OFFSET_TICKET_CAP);
    var count :- U32(ledger, OFFSET_PURCHASE_COUNT);
    var purchaseCap :- U32(ledger, OFFSET_PURCHASE_CAP);
    var close :- U63(ledger, OFFSET_CLOSE_ELIGIBLE_DAA);
    var _ :- Require(sold < cap && count < purchaseCap ==> LockedUntil(e, close - 1));
    var minTickets :- U32(ledger, OFFSET_MIN_TICKETS);
    if sold == 0 then
      var _ :- Require(a.nextTail == [] && NoFamily(e, id));
      var _ :- Require(Ordinary(e, 0, DEPOSIT, ledger[OFFSET_OWNER_KEY..HEADER_BYTES]));
      Val(Final(EMPTY))
    else
      var to := if sold >= minTickets then SealedModule else RefundingModule;
      var next :- Set4(ledger, OFFSET_PHASE, if sold >= minTickets then SEALED else REFUNDING);
      var _ :- Require(TemplateHash(h, a.nextTail) == TemplateHash(h, FrameOf(p, to).tail));
      var _ :- Successor(h, e, id, next, a.nextTail, e.utxos[0].value);
      Val(Continue(to, next))
  }

  /** `entry spend`. The source reads a field where it first needs it; every read here is one it makes on that path. */
  function Spend(h: Hashes, p: Profile, e: Env, ledger: Bytes, a: Args): Run<Verdict>
    requires Matched(e)
  {
    var tail :- Entry(h, e, ledger, 2, a.programTailBytes, a.actorPk);
    var _ :- CheckRoot(h, e, ledger, a, tail);
    var _ :- CheckLedger(ledger);
    var _ :- Require(FeeMatches(e, a.fee));
    if a.action == 1 then Buy(h, e, ledger, a, tail)
    else if a.action == 2 then Close(h, p, e, ledger, a)
    else Abort
  }
}
