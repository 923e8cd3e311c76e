/** The client's builder policy: snapshots, draws and transitions
    (scripts/core/src/state.ts:97-111, scripts/core/src/protocol.ts). */
module Protocol {
  import opened Results
  import opened Bytes
  import opened Layout
  import opened State
  import opened Directory
  import opened Scripts
  import opened Tx
  import opened Frames
  import opened Draws
  import Sil

  type Terminal = Sil.Terminal

  datatype Snapshot = Snapshot(ledger: Bytes, tip: Outpoint, scriptPublicKey: Spk, covenantId: Bytes, value: int,
                               utxoDaa: int, currentDaa: int, origin: Outpoint)

  // ---------------------------------------------------------------- snapshots

  function VerifySnapshot(h: Hashes, p: Profile, x: Snapshot): Result<Ledger> {
    var _ :- Check(|x.tip.transactionId| == 32, BYTE_LENGTH);
    var _ :- Check(0 <= x.tip.index <= 0x7fff_ffff, INTEGER_RANGE);
    var _ :- Check(|x.origin.transactionId| == 32, BYTE_LENGTH);
    var _ :- Check(x.origin.transactionId != ZERO, ORIGIN_ZERO);
    var _ :- Check(0 <= x.origin.index <= 0x7fff_ffff, INTEGER_RANGE);
    var _ :- Check(|x.covenantId| == 32, BYTE_LENGTH);
    var _ :- Check(0 <= x.utxoDaa < DAA_LIMIT, UTXO_DAA);
    var _ :- Check(0 <= x.currentDaa < DAA_LIMIT, CURRENT_DAA);
    var s :- DecodeLedger(x.ledger);
    var _ :- ValidateLedger(s);
    ValidateIsValid(s);
    ValidIsDecodable(s);
    var root :- RootId(h, x.origin, RootScript(s, p));
    var _ :- Check(root == x.covenantId, OPEN_GENESIS_CID_MISMATCH);
    var _ :- Check(x.value == ValueOf(s), STATE_INPUT_AMOUNT);
    var _ :- Check(x.scriptPublicKey == P2sh(h.blake2b(ScriptOf(s, p))), STATE_INPUT_SPK);
    Ok(s)
  }

  /** What a verified snapshot is: the hash-bound state output of a valid ledger in the origin's lineage. */
  ghost predicate Verified(h: Hashes, p: Profile, x: Snapshot, s: Ledger) {
    && |x.tip.transactionId| == 32 && 0 <= x.tip.index <= 0x7fff_ffff
    && |x.origin.transactionId| == 32 && x.origin.transactionId != ZERO && 0 <= x.origin.index <= 0x7fff_ffff
    && |x.covenantId| == 32
    && 0 <= x.utxoDaa < DAA_LIMIT && 0 <= x.currentDaa < DAA_LIMIT
    && ValidLedger(s) && Decodable(s)
    && x.ledger == LedgerBytes(s)
    && x.covenantId == h.covenantId(RootPreimage(h, x.origin, RootScript(s, p)))
    && x.value == ValueOf(s)
    && x.scriptPublicKey == P2sh(h.blake2b(ScriptOf(s, p)))
  }

  lemma VerifyIsVerified(h: Hashes, p: Profile, x: Snapshot, s: Ledger)
    ensures VerifySnapshot(h, p, x) == Ok(s) <==> Verified(h, p, x, s)
  {
    hide LedgerBytes, DecodeLedger, ValidateLedger, ValidLedger, RootId, RootPreimage, ScriptOf, RootScript, ValueOf, P2sh;
    if DecodeLedger(x.ledger).Ok? {
      EncodeOfDecode(x.ledger);
      ValidateIsValid(DecodeLedger(x.ledger).value);
    }
    if ValidLedger(s) {
      ValidIsDecodable(s);
      ValidateIsValid(s);
      DecodeOfEncode(s);
      if |x.origin.transactionId| == 32 && 0 <= x.origin.index <= 0x7fff_ffff {
        RootIdHashesRootPreimage(h, x.origin, RootScript(s, p));
      }
    }
  }

  // ---------------------------------------------------------------- draws

  datatype Accessor = Accessor(blockHash: Bytes, sequenceCommitment: Bytes)
  datatype Draw = Draw(seed: Digest, boundaryDaa: int, anchorDaa: int, anchor: Outpoint, targetHash: Bytes,
                       targetSeq: Digest)
  datatype Sample = Sample(value: nat, limit: nat, ticket: Option<nat>)
  datatype DrawnWinner = DrawnWinner(draw: Draw, sample: Sample, ticket: nat, record: nat)

  function OpeningNumber(proof: Bytes, at: nat): Result<nat>
    requires at + 8 <= |proof|
  {
    var n := FromLe(proof[at..at + 8]);
    if n < 0x8000_0000_0000_0000 then Ok(n) else Err(PASS_A_INTEGER)
  }

  function AuthenticateDraw(h: Hashes, x: Snapshot, s: Ledger, proof: Bytes, accessor: Accessor): Result<Draw>
    requires Decodable(s) && x.tip.index >= 0
  {
    var _ :- Check(s.phase == SEALED, NOT_SEALED);
    var _ :- Check(|proof| == OPENING_BYTES, PASS_A_LENGTH);
    var _ :- Check(0 <= x.utxoDaa < DAA_LIMIT - TIMEOUT_DELAY, ANCHOR_DAA);
    var boundary := x.utxoDaa + DRAW_DELAY;
    var _ :- Check(x.currentDaa >= boundary, DRAW_TOO_EARLY);
    var pd :- OpeningNumber(proof, 224);
    var td :- OpeningNumber(proof, 104);
    var _ :- Check(pd < boundary && boundary <= td < DAA_LIMIT, PASS_A_FIRST_CROSSING);
    var targetBlue :- OpeningNumber(proof, 112);
    var parentBlue :- OpeningNumber(proof, 232);
    var _ :- Check(targetBlue > parentBlue, PASS_A_BLUE_ORDER);
    var _ :- OpeningNumber(proof, 96);
    var _ :- OpeningNumber(proof, 216);
    var _ :- Check(proof[..32] == accessor.blockHash, PASS_A_TARGET_HASH);
    var t := TargetSeq(h, proof);
    var _ :- Check(t == accessor.sequenceCommitment, PASS_A_COMMITMENT);
    LedgerSlices(s);
    var seed := Seed(h, x.covenantId, x.tip, LedgerBytes(s), boundary, proof);
    Ok(Draw(seed, boundary, x.utxoDaa, x.tip, proof[..32], t))
  }

  function TakeSample(h: Hashes, seed: Digest, sold: int): Result<Sample> {
    var _ :- Check(3 <= sold <= MAX_TICKETS, INTEGER_RANGE);
    var value, limit := SampleValue(h, seed), Limit(sold);
    Ok(Sample(value, limit, if value < limit then Some(value % sold) else None))
  }

  /** Index of the first of `n` records whose end lies beyond `ticket`; `n` when there is none. */
  function FirstBeyond(dir: Bytes, n: nat, ticket: int): (i: nat)
    requires HasRecords(dir, n)
    ensures i <= n
    ensures i < n ==> ticket < EndAt(dir, i)
    ensures forall j | 0 <= j < i :: EndAt(dir, j) <= ticket
  {
    if n == 0 then 0
    else
      var i := FirstBeyond(dir, n - 1, ticket);
      if i < n - 1 || ticket < EndAt(dir, n - 1) then i else n
  }

  function RecordOfTicket(s: Ledger, ticket: int): Result<nat> {
    var _ :- Check(0 <= ticket <= s.sold - 1, INTEGER_RANGE);
    var rs :- Records(s);
    var i := FirstBeyond(s.directory, s.purchaseCount, ticket);
    var _ :- Check(i < s.purchaseCount, WINNER_NOT_FOUND);
    Ok(i)
  }

  function DrawWinner(h: Hashes, x: Snapshot, s: Ledger, proof: Bytes, accessor: Accessor): Result<DrawnWinner>
    requires Decodable(s) && x.tip.index >= 0
  {
    var draw :- AuthenticateDraw(h, x, s, proof, accessor);
    var sample :- TakeSample(h, draw.seed, s.sold);
    var _ :- Check(sample.ticket.Some?, SAMPLE_REJECTED);
    var record :- RecordOfTicket(s, sample.ticket.value);
    Ok(DrawnWinner(draw, sample, sample.ticket.value, record))
  }

  function TimeoutDaa(x: Snapshot, s: Ledger): Result<int> {
    var _ :- Check(s.phase == SEALED, NOT_SEALED);
    var _ :- Check(0 <= x.utxoDaa < DAA_LIMIT - TIMEOUT_DELAY, ANCHOR_DAA);
    Ok(x.utxoDaa + TIMEOUT_DELAY)
  }

  /** Exactly one record's window holds a ticket, and it is the one that the client finds. */
  lemma WinnerUnique(s: Ledger, ticket: int, hint: nat)
    requires ValidLedger(s) && 0 <= ticket < s.sold && hint < s.purchaseCount
    ensures StartAt(s.directory, hint) <= ticket < EndAt(s.directory, hint)
       <==> RecordOfTicket(s, ticket) == Ok(hint)
  {
    hide EndAt, ValidConfig, Records;
    ValidRecords(s);
    assert EndAt(s.directory, s.purchaseCount - 1) == s.sold;
    var i := FirstBeyond(s.directory, s.purchaseCount, ticket);
    if i < hint {
      EndsMonotone(s.directory, s.purchaseCount, s.sold, i + 1, hint);
    } else if hint < i {
      EndsMonotone(s.directory, s.purchaseCount, s.sold, hint + 1, i);
    }
  }

  lemma WinnerExists(s: Ledger, ticket: int)
    requires ValidLedger(s) && 0 <= ticket < s.sold
    ensures RecordOfTicket(s, ticket).Ok? && RecordOfTicket(s, ticket).value < s.purchaseCount
  {
    hide EndAt, ValidConfig, Records;
    ValidRecords(s);
    assert EndAt(s.directory, s.purchaseCount - 1) == s.sold;
  }

  // ---------------------------------------------------------------- transitions

  datatype Action = BUY | CLOSE | DRAW_AND_PAY | TIMEOUT_REFUND | REFUND

  function ActionCode(a: Action): nat {
    match a
    case BUY => 1
    case CLOSE => 2
    case DRAW_AND_PAY => 4
    case TIMEOUT_REFUND => 9
    case REFUND => 10
  }

  datatype Operation = Operation(action: Action, actorKey: Bytes, quantity: Option<int>, opening: Option<Bytes>,
                                 accessor: Option<Accessor>)

  /** Output roles; CHANGE is the builder's, STATE and AUXILIARY are the reader's. */
  datatype Role = WINNER | CREATOR | EXECUTOR | BUYER_REFUND | CHANGE | STATE | AUXILIARY
  datatype Payment = Payment(value: int, spk: Spk, role: Role)

  datatype Transition = Transition(next: Option<Ledger>, terminal: Option<Terminal>, payments: seq<Payment>, data: Bytes,
                                   lockTime: int, sequence: int, requiredExternal: int, foreignTail: Bytes,
                                   draw: Option<Draw>)

  datatype Batch = Batch(k: int, last: bool, pool: int, deposit: int)

  function RefundBatch(s: Ledger): Result<Batch> {
    var _ :- Check(s.phase == REFUNDING, NOT_REFUNDING);
    var remaining := s.purchaseCount - s.cursor;
    var k := if remaining < MAX_REFUND_RECORDS then remaining else MAX_REFUND_RECORDS;
    var last := s.cursor + k == s.purchaseCount;
    var _ :- Check(k > 0, NO_REFUND_RECORDS);
    Ok(Batch(k, last, k * REFUND_FEE + (if last then REFUND_FEE else 0), if last then DEPOSIT - REFUND_FEE else 0))
  }

  function AvailableActions(h: Hashes, p: Profile, x: Snapshot): Result<seq<Action>> {
    var s :- VerifySnapshot(h, p, x);
    if s.phase == OPEN then
      Ok((if s.sold < s.config.ticketCap && s.purchaseCount < s.config.purchaseCap then [BUY] else [])
         + (if s.sold == s.config.ticketCap || s.purchaseCount == s.config.purchaseCap
               || x.currentDaa >= s.config.closeEligibleDaa then [CLOSE] else []))
    else if s.phase == REFUNDING then Ok([REFUND])
    else
      var timeout :- TimeoutDaa(x, s);
      Ok((if x.currentDaa >= x.utxoDaa + DRAW_DELAY then [DRAW_AND_PAY] else [])
         + (if x.currentDaa >= timeout then [TIMEOUT_REFUND] else []))
  }

  function PayChecked(value: int, key: Bytes, role: Role): Result<Payment> {
    var _ :- Check(Payable(value), PAYMENT_VALUE);
    Ok(Payment(value, P2pk(key), role))
  }

  function BuyPlan(s: Ledger, op: Operation, fee: int): Result<Transition> {
    var _ :- Check(op.quantity.Some?, QUANTITY_MISSING);
    var next :- AppendPurchase(s, op.quantity.value, op.actorKey);
    var data :- LeChecked(op.quantity.value, 4);
    Ok(Transition(Some(next), None, [], data, 0, 0, Cost(op.quantity.value, s.config.ticketPrice) + fee, [], None))
  }

  function ClosePlan(p: Profile, s: Ledger, fee: int): Result<Transition> {
    var lockTime := if s.sold < s.config.ticketCap && s.purchaseCount < s.config.purchaseCap
                    then s.config.closeEligibleDaa - 1 else 0;
    if s.sold == 0 then
      var creator :- PayChecked(DEPOSIT, s.ownerKey, CREATOR);
      Ok(Transition(None, Some(Sil.EMPTY), [creator], [], lockTime, 0, fee, [], None))
    else
      var next := s.(phase := if s.sold >= s.config.minTickets then SEALED else REFUNDING);
      Ok(Transition(Some(next), None, [], [], lockTime, 0, fee, FrameOf(p, PhaseModule(next.phase)).tail, None))
  }

  function DrawPlan(h: Hashes, x: Snapshot, s: Ledger, op: Operation, fee: int, external: int): Result<Transition>
    requires Decodable(s) && x.tip.index >= 0
  {
    var _ :- Check(op.opening.Some? && op.accessor.Some?, DRAW_PROOF_MISSING);
    var _ :- Check(external == 0, PAY_HAS_EXTERNAL_INPUT);
    var w :- DrawWinner(h, x, s, op.opening.value, op.accessor.value);
    var rs :- Records(s);
    var _ :- Check(w.record < |rs|, WINNER_NOT_FOUND);
    var prize := Cost(s.sold, s.config.ticketPrice) - FINALIZER - fee;
    var _ :- Check(prize >= MIN_PRICE, WINNER_MINIMUM);
    var winner :- PayChecked(prize, rs[w.record].key, WINNER);
    var creator :- PayChecked(DEPOSIT, s.ownerKey, CREATOR);
    var executor :- PayChecked(FINALIZER, op.actorKey, EXECUTOR);
    var record :- LeChecked(w.record, 4);
    Ok(Transition(None, Some(Sil.PAID), [winner, creator, executor], op.opening.value + record, 0, DRAW_DELAY, 0, [],
                  Some(w.draw)))
  }

  function TimeoutPlan(p: Profile, x: Snapshot, s: Ledger, fee: int): Result<Transition> {
    var due :- TimeoutDaa(x, s);
    var _ :- Check(x.currentDaa >= due, TIMEOUT_EARLY);
    Ok(Transition(Some(s.(phase := REFUNDING)), None, [], [], 0, TIMEOUT_DELAY, fee, p.refunding.tail, None))
  }

  /** Refund payments of `n` records from index `from`. */
  function RefundPayments(rs: seq<Record>, price: int, from: nat, n: nat): Result<seq<Payment>>
    requires from + n <= |rs|
  {
    if n == 0 then Ok([])
    else
      var before :- RefundPayments(rs, price, from, n - 1);
      var q := rs[from + n - 1];
      var refund :- PayChecked(Cost(q.count, price) - REFUND_FEE, q.key, BUYER_REFUND);
      Ok(before + [refund])
  }

  function RefundPlan(s: Ledger, op: Operation, fee: int, external: int): Result<Transition> {
    var b :- RefundBatch(s);
    var rs :- Records(s);
    var _ :- Check(0 <= s.cursor, INTEGER_RANGE);
    var refunds :- RefundPayments(rs, s.config.ticketPrice, s.cursor, b.k);
    var creator :- if b.last then LastDeposit(b.deposit, s.ownerKey) else Ok([]);
    var _ :- Check(external + b.pool > fee, REFUND_FEE_POOL);
    var executor :- PayChecked(external + b.pool - fee, op.actorKey, EXECUTOR);
    Ok(Transition(if b.last then None else Some(s.(cursor := s.cursor + b.k)),
                  if b.last then Some(Sil.REFUNDED) else None,
                  refunds + creator + [executor], [], 0, 0, if fee >= b.pool then fee - b.pool + 1 else 0, [], None))
  }

  function LastDeposit(deposit: int, ownerKey: Bytes): Result<seq<Payment>> {
    var creator :- PayChecked(deposit, ownerKey, CREATOR);
    Ok([creator])
  }

  function Plan(h: Hashes, p: Profile, x: Snapshot, s: Ledger, op: Operation, fee: int, external: int): Result<Transition>
    requires Decodable(s) && x.tip.index >= 0
  {
    match op.action
    case BUY => BuyPlan(s, op, fee)
    case CLOSE => ClosePlan(p, s, fee)
    case DRAW_AND_PAY => DrawPlan(h, x, s, op, fee, external)
    case TIMEOUT_REFUND => TimeoutPlan(p, x, s, fee)
    case REFUND => RefundPlan(s, op, fee, external)
  }

  function OutputLimit(m: Module): nat {
    match m
    case OpenModule => 2
    case SealedModule => 3
    case RefundingModule => 34
  }

  /** Funding beyond what the action needs comes back as change. */
  function Change(op: Operation, t: Transition, external: int): Result<seq<Payment>> {
    if op.action in {DRAW_AND_PAY, REFUND} then Ok([])
    else
      var _ :- Check(external >= t.requiredExternal, INSUFFICIENT_FUNDING);
      if external > t.requiredExternal then
        var change :- PayChecked(external - t.requiredExternal, op.actorKey, CHANGE);
        Ok([change])
      else Ok([])
  }

  function StateOutputs(t: Transition): nat {
    if t.next.Some? then 1 else 0
  }

  function TransitionOf(h: Hashes, p: Profile, x: Snapshot, op: Operation, fee: int, external: int): Result<Transition> {
    var s :- VerifySnapshot(h, p, x);
    var _ :- KeyChecked(op.actorKey);
    var _ :- Check(0 < fee <= MAX_PAY_FEE, NETWORK_FEE);
    var _ :- Check(0 <= external < VALUE_LIMIT, EXTERNAL_VALUE);
    var actions :- AvailableActions(h, p, x);
    var _ :- Check(op.action in actions, ACTION_NOT_AVAILABLE);
    VerifyIsVerified(h, p, x, s);
    var t :- Plan(h, p, x, s, op, fee, external);
    var change :- Change(op, t, external);
    var _ :- if t.next.Some? then ValidateLedger(t.next.value) else Ok(());
    var _ :- Check(StateOutputs(t) + |t.payments + change| <= OutputLimit(PhaseModule(s.phase)), OUTPUT_LIMIT);
    Ok(t.(payments := t.payments + change))
  }

  // ---------------------------------------------------------------- the source's preparation, step by step

  /** The loop that pays a batch. */
  method PayRefunds(rs: seq<Record>, price: int, cursor: nat, k: nat) returns (r: Result<seq<Payment>>)
    requires cursor + k <= |rs|
    ensures r == RefundPayments(rs, price, cursor, k)
  {
    var payments := [];
    for i := 0 to k
      invariant RefundPayments(rs, price, cursor, i) == Ok(payments)
    {
      var q := rs[cursor + i];
      var refund := PayChecked(Cost(q.count, price) - REFUND_FEE, q.key, BUYER_REFUND);
      if refund.Err? {
        FirstRefundFailure(rs, price, cursor, i + 1, k);
        return Err(refund.code);
      }
      payments := payments + [refund.value];
    }
    r := Ok(payments);
  }

  lemma {:induction false} FirstRefundFailure(rs: seq<Record>, price: int, from: nat, m: nat, n: nat)
    requires m <= n && from + n <= |rs| && RefundPayments(rs, price, from, m).Err?
    ensures RefundPayments(rs, price, from, n) == RefundPayments(rs, price, from, m)
    decreases n
  {
    if m < n {
      FirstRefundFailure(rs, price, from, m, n - 1);
    }
  }

  /** The switch: it assigns its locals and appends payments. */
  method PlanAction(h: Hashes, p: Profile, x: Snapshot, s: Ledger, op: Operation, fee: int, external: int)
    returns (r: Result<Transition>)
    requires Decodable(s) && x.tip.index >= 0
    ensures r == Plan(h, p, x, s, op, fee, external)
  {
    hide DrawWinner, AppendPurchase, Records, Cost, P2pk, RefundBatch, TimeoutDaa, RefundPayments, PhaseModule, FrameOf;
    var next: Option<Ledger>, terminal: Option<Terminal>, draw: Option<Draw> := None, None, None;
    var lockTime, sequence, requiredExternal := 0, 0, fee;
    var data: Bytes, foreignTail: Bytes, payments: seq<Payment> := [], [], [];
    match op.action {
      case BUY =>
        var _ :- Check(op.quantity.Some?, QUANTITY_MISSING);
        var bought :- AppendPurchase(s, op.quantity.value, op.actorKey);
        next := Some(bought);
        data :- LeChecked(op.quantity.value, 4);
        requiredExternal := Cost(op.quantity.value, s.config.ticketPrice) + fee;
      case CLOSE =>
        if s.sold < s.config.ticketCap && s.purchaseCount < s.config.purchaseCap {
          lockTime := s.config.closeEligibleDaa - 1;
        }
        if s.sold == 0 {
          terminal := Some(Sil.EMPTY);
          payments := [Payment(DEPOSIT, P2pk(s.ownerKey), CREATOR)];
        } else {
          next := Some(s.(phase := if s.sold >= s.config.minTickets then SEALED else REFUNDING));
          foreignTail := FrameOf(p, PhaseModule(next.value.phase)).tail;
        }
      case DRAW_AND_PAY =>
        var _ :- Check(op.opening.Some? && op.accessor.Some?, DRAW_PROOF_MISSING);
        var _ :- Check(external == 0, PAY_HAS_EXTERNAL_INPUT);
        var w :- DrawWinner(h, x, s, op.opening.value, op.accessor.value);
        var rs :- Records(s);
        var _ :- Check(w.record < |rs|, WINNER_NOT_FOUND);
        draw, sequence := Some(w.draw), DRAW_DELAY;
        var prize := Cost(s.sold, s.config.ticketPrice) - FINALIZER - fee;
        var _ :- Check(prize >= MIN_PRICE, WINNER_MINIMUM);
        var winner :- PayChecked(prize, rs[w.record].key, WINNER);
        payments := [winner];
        payments := payments + [Payment(DEPOSIT, P2pk(s.ownerKey), CREATOR)];
        payments := payments + [Payment(FINALIZER, P2pk(op.actorKey), EXECUTOR)];
        assert payments == [winner, Payment(DEPOSIT, P2pk(s.ownerKey), CREATOR), Payment(FINALIZER, P2pk(op.actorKey), EXECUTOR)];
        var record :- LeChecked(w.record, 4);
        data, terminal, requiredExternal := op.opening.value + record, Some(Sil.PAID), 0;
      case TIMEOUT_REFUND =>
        var due :- TimeoutDaa(x, s);
        var _ :- Check(x.currentDaa >= due, TIMEOUT_EARLY);
        sequence, next, foreignTail := TIMEOUT_DELAY, Some(s.(phase := REFUNDING)), p.refunding.tail;
      case REFUND =>
        var b :- RefundBatch(s);
        var rs :- Records(s);
        BatchFits(s);
        payments :- PayRefunds(rs, s.config.ticketPrice, s.cursor, b.k);
        if b.last {
          terminal := Some(Sil.REFUNDED);
          var creator :- PayChecked(b.deposit, s.ownerKey, CREATOR);
          payments := payments + [creator];
        } else {
          assert payments + [] == payments;
          next := Some(s.(cursor := s.cursor + b.k));
        }
        var _ :- Check(external + b.pool > fee, REFUND_FEE_POOL);
        var executor :- PayChecked(external + b.pool - fee, op.actorKey, EXECUTOR);
        payments := payments + [executor];
        requiredExternal := if fee >= b.pool then fee - b.pool + 1 else 0;
    }
    r := Ok(Transition(next, terminal, payments, data, lockTime, sequence, requiredExternal, foreignTail, draw));
  }

  method PrepareTransition(h: Hashes, p: Profile, x: Snapshot, op: Operation, fee: int, external: int)
    returns (r: Result<Transition>)
    ensures r == TransitionOf(h, p, x, op, fee, external)
  {
    hide VerifySnapshot, ValidateLedger, AvailableActions, Plan, P2pk, PhaseModule;
    var s :- VerifySnapshot(h, p, x);
    var _ :- KeyChecked(op.actorKey);
    var _ :- Check(0 < fee <= MAX_PAY_FEE, NETWORK_FEE);
    var _ :- Check(0 <= external < VALUE_LIMIT, EXTERNAL_VALUE);
    var actions :- AvailableActions(h, p, x);
    var _ :- Check(op.action in actions, ACTION_NOT_AVAILABLE);
    VerifiedIndex(h, p, x, s);
    var t :- PlanAction(h, p, x, s, op, fee, external);
    var payments := t.payments;
    assert t.payments + [] == t.payments;
    if op.action != DRAW_AND_PAY && op.action != REFUND {
      var _ :- Check(external >= t.requiredExternal, INSUFFICIENT_FUNDING);
      if external > t.requiredExternal {
        var change :- PayChecked(external - t.requiredExternal, op.actorKey, CHANGE);
        payments := payments + [change];
      }
    }
    if t.next.Some? {
      var _ :- ValidateLedger(t.next.value);
    }
    var _ :- Check((if t.next.Some? then 1 else 0) + |payments| <= OutputLimit(PhaseModule(s.phase)), OUTPUT_LIMIT);
    r := Ok(t.(payments := payments));
  }

  lemma VerifiedIndex(h: Hashes, p: Profile, x: Snapshot, s: Ledger)
    requires VerifySnapshot(h, p, x) == Ok(s)
    ensures Decodable(s) && x.tip.index >= 0
  {
    VerifyIsVerified(h, p, x, s);
  }

  lemma BatchFits(s: Ledger)
    requires RefundBatch(s).Ok? && 0 <= s.cursor
    ensures s.cursor + RefundBatch(s).value.k <= s.purchaseCount && RefundBatch(s).value.k >= 0
  {
  }
}
