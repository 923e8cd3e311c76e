/** The client's reader of accepted transactions (scripts/core/src/accepted.ts). */
module Accepted {
  import opened Results
  import opened Bytes
  import opened Layout
  import opened State
  import opened Directory
  import opened Scripts
  import opened Tx
  import opened Frames
  import opened Draws
  import opened Protocol
  import Sil

  // ---------------------------------------------------------------- the witness

  datatype SpendInfo = SpendInfo(action: Action, to: Module, spent: Ledger, ledger: Bytes, origin: Outpoint,
                                 actorKey: Bytes, data: Bytes, nextTail: Bytes, witnessFee: int)

  function ActionOf(n: int): Result<Action> {
    if n == 1 then Ok(BUY)
    else if n == 2 then Ok(CLOSE)
    else if n == 4 then Ok(DRAW_AND_PAY)
    else if n == 9 then Ok(TIMEOUT_REFUND)
    else if n == 10 then Ok(REFUND)
    else Err(UNSUPPORTED_ACTION)
  }

  function DataU32(b: Bytes): Result<nat> {
    var _ :- Check(|b| == 4, DATA_U32);
    var _ :- Check(FromLe(b) <= 0x7fff_ffff, INTEGER_RANGE);
    Ok(FromLe(b))
  }

  predicate EndsWithTail(redeem: Bytes, tail: Bytes) {
    |redeem| > |tail| && HasSuffix(redeem, tail)
  }

  function ModuleOf(p: Profile, redeem: Bytes): Result<Module> {
    if EndsWithTail(redeem, p.open.tail) then Ok(OpenModule)
    else if EndsWithTail(redeem, p.sealed.tail) then Ok(SealedModule)
    else if EndsWithTail(redeem, p.refunding.tail) then Ok(RefundingModule)
    else Err(UNPINNED_TEMPLATE)
  }

  /** The ledger that a redeem script carries under the template of `m`. */
  function RedeemLedger(p: Profile, redeem: Bytes, m: Module): Result<Ledger>
    requires |redeem| > |FrameOf(p, m).tail|
  {
    var fields :- ScriptPushes(redeem[1..|redeem| - |FrameOf(p, m).tail|]);
    var _ :- Check(|fields| == 1, LEDGER_PUSH_COUNT);
    var spent :- DecodeLedger(fields[0]);
    EncodeOfDecode(fields[0]);
    var _ :- Check(spent.phase in {OPEN, SEALED, REFUNDING}, PHASE);
    var _ :- Check(m == PhaseModule(spent.phase) && redeem == ScriptOf(spent, p), REDEEM_STATE_TEMPLATE);
    Ok(spent)
  }

  function WitnessOrigin(m: Module, pushes: seq<Bytes>, context: Option<Outpoint>): Result<Outpoint>
    requires |pushes| >= 8
  {
    if m == OpenModule then
      var index :- ScriptNumber(pushes[2]);
      Ok(Outpoint(pushes[1], index))
    else if context.Some? then Ok(context.value) else Err(ORIGIN_REQUIRED)
  }

  function DecodeSpend(p: Profile, script: Bytes, context: Option<Outpoint>): Result<SpendInfo> {
    var pushes :- ScriptPushes(script);
    var _ :- Check(pushes != [], REDEEM_FORMAT);
    var redeem := pushes[|pushes| - 1];
    var _ :- Check(redeem != [] && redeem[0] == 0x6b, REDEEM_FORMAT);
    var m :- ModuleOf(p, redeem);
    var shift := if m == OpenModule then 2 else 0;
    var _ :- Check(|pushes| == 8 + shift, SPEND_ABI);
    var spent :- RedeemLedger(p, redeem, m);
    var origin :- WitnessOrigin(m, pushes, context);
    var _ :- Check(|origin.transactionId| == 32, BYTE_LENGTH);
    var _ :- Check(0 <= origin.index <= 0x7fff_ffff, INTEGER_RANGE);
    var _ :- Check(context.Some? ==> origin == context.value, ORIGIN_MISMATCH);
    var tailBytes :- ScriptNumber(pushes[1 + shift]);
    var _ :- Check(tailBytes == |FrameOf(p, m).tail|, TAIL_LENGTH);
    var _ :- Check(pushes[6 + shift] == FrameOf(p, m).tag, DISPATCH_TAG);
    var actorKey :- KeyChecked(pushes[4 + shift]);
    var code :- ScriptNumber(pushes[0]);
    var action :- ActionOf(code);
    var fee :- ScriptNumber(pushes[5 + shift]);
    EncodedSpent(p, redeem, m);
    Ok(SpendInfo(action, m, spent, LedgerBytes(spent), origin, actorKey, pushes[3 + shift], pushes[2 + shift], fee))
  }

  /** The ledger push that the source keeps is the encoding of the ledger it decodes to. */
  lemma EncodedSpent(p: Profile, redeem: Bytes, m: Module)
    requires |redeem| > |FrameOf(p, m).tail| && RedeemLedger(p, redeem, m).Ok?
    ensures Fits(RedeemLedger(p, redeem, m).value) && Decodable(RedeemLedger(p, redeem, m).value)
    ensures ScriptPushes(redeem[1..|redeem| - |FrameOf(p, m).tail|]) == Ok([LedgerBytes(RedeemLedger(p, redeem, m).value)])
  {
    hide DecodeLedger, LedgerBytes, ScriptPushes, ScriptOf;
    var fields := ScriptPushes(redeem[1..|redeem| - |FrameOf(p, m).tail|]).value;
    EncodeOfDecode(fields[0]);
    assert fields == [fields[0]];
  }

  // ---------------------------------------------------------------- interpretation

  datatype DrawInfo = DrawInfo(opening: Bytes, target: Bytes, seqCommit: Digest, boundaryDaa: int, anchorDaa: int,
                               seed: Digest)
  datatype WinnerInfo = WinnerInfo(record: nat, ticket: nat, key: Bytes, ticketsInRecord: int, firstTicket: int,
                                   lastTicket: int, prize: int)

  datatype Interpretation = Interpretation(
    action: Action, to: Module, actorKey: Bytes, spent: Ledger, next: Option<Ledger>, terminal: Option<Terminal>,
    witnessFee: int, fee: int, external: int, roles: seq<Role>, draw: Option<DrawInfo>,
    winner: Option<WinnerInfo>, timeoutAnchorDaa: Option<int>)

  /** What an action's own checks establish before the successor is compared. */
  datatype Effect = Effect(next: Option<Ledger>, terminal: Option<Terminal>, roles: seq<Role>,
                           draw: Option<DrawInfo>, winner: Option<WinnerInfo>, timeoutAnchorDaa: Option<int>)

  function Auxiliary(n: nat): (roles: seq<Role>)
    ensures |roles| == n && forall i | 0 <= i < n :: roles[i] == AUXILIARY
  {
    seq(n, _ => AUXILIARY)
  }

  /** Output `index` is an ordinary payment of `value` to `key`. */
  predicate PaysAs(tx: Transaction, index: nat, value: int, key: Bytes) {
    index < |tx.outputs| && Payable(value) && tx.outputs[index] == Pay(value, key)
  }

  function Age(x: Snapshot, tx: Transaction, required: int): Result<()>
    requires tx.inputs != []
  {
    var sequence := tx.inputs[0].sequence;
    var _ :- Check(sequence < 0x8000_0000_0000_0000 && sequence % 0x1_0000_0000 >= required, SEQUENCE_REQUIREMENT);
    Check(x.currentDaa >= x.utxoDaa + required, AGE_REQUIREMENT)
  }

  function ReadBuy(s: Ledger, w: SpendInfo, tx: Transaction): (r: Result<Effect>)
    ensures r.Ok? ==> |r.value.roles| == |tx.outputs|
  {
    var _ :- Check(|tx.inputs| >= 2 && w.nextTail == [], BUY_TOPOLOGY);
    var quantity :- DataU32(w.data);
    var next :- AppendPurchase(s, quantity, w.actorKey);
    Ok(Effect(Some(next), None, Auxiliary(|tx.outputs|), None, None, None))
  }

  function ReadClose(x: Snapshot, s: Ledger, w: SpendInfo, tx: Transaction): (r: Result<Effect>)
    ensures r.Ok? ==> |r.value.roles| == |tx.outputs|
  {
    var _ :- Check(|tx.inputs| >= 2 && w.data == [], CLOSE_TOPOLOGY);
    var open := s.sold < s.config.ticketCap && s.purchaseCount < s.config.purchaseCap;
    var _ :- Check(open ==> s.config.closeEligibleDaa - 1 <= tx.lockTime < DAA_LIMIT
                            && tx.inputs[0].sequence != MAX_SEQUENCE, CLOSE_LOCKTIME);
    var _ :- Check(open ==> x.currentDaa >= s.config.closeEligibleDaa, CLOSE_TOO_EARLY);
    if s.sold == 0 then
      var _ :- Check(w.nextTail == [], EMPTY_TAIL);
      var _ :- Check(PaysAs(tx, 0, DEPOSIT, s.ownerKey), PAYOUT_MISMATCH);
      Ok(Effect(None, Some(Sil.EMPTY), Auxiliary(|tx.outputs|)[0 := CREATOR], None, None, None))
    else
      Ok(Effect(Some(s.(phase := if s.sold >= s.config.minTickets then SEALED else REFUNDING)), None,
                Auxiliary(|tx.outputs|), None, None, None))
  }

  function ReadDraw(h: Hashes, x: Snapshot, s: Ledger, w: SpendInfo, tx: Transaction, fee: int): (r: Result<Effect>)
    requires Decodable(s) && x.tip.index >= 0
    ensures r.Ok? ==> |r.value.roles| == |tx.outputs|
  {
    var _ :- Check(|tx.inputs| == 1 && |tx.outputs| == 3 && |w.data| == 244 && w.nextTail == [], DRAW_TOPOLOGY);
    var _ :- Age(x, tx, DRAW_DELAY);
    var opening, target := w.data[..240], w.data[..32];
    var seqCommit := TargetSeq(h, opening);
    var drawn :- DrawWinner(h, x, s, opening, Accessor(target, seqCommit));
    var hint :- DataU32(w.data[240..]);
    var rs :- Records(s);
    var _ :- Check(hint < |rs|, INTEGER_RANGE);
    var r := rs[hint];
    var _ :- Check(hint == drawn.record, WINNER_HINT);
    var _ :- Check(fee == w.witnessFee && fee <= MAX_PAY_FEE, DRAW_FEE);
    var prize := Cost(s.sold, s.config.ticketPrice) - FINALIZER - fee;
    var _ :- Check(prize >= MIN_PRICE, WINNER_MINIMUM);
    var _ :- Check(PaysAs(tx, 0, prize, r.key), PAYOUT_MISMATCH);
    var _ :- Check(PaysAs(tx, 1, DEPOSIT, s.ownerKey), PAYOUT_MISMATCH);
    var _ :- Check(PaysAs(tx, 2, FINALIZER, w.actorKey), PAYOUT_MISMATCH);
    Ok(Effect(None, Some(Sil.PAID), [WINNER, CREATOR, EXECUTOR],
              Some(DrawInfo(opening, target, seqCommit, drawn.draw.boundaryDaa, x.utxoDaa, drawn.draw.seed)),
              Some(WinnerInfo(hint, drawn.ticket + 1, r.key, r.count, r.end - r.count + 1, r.end, prize)), None))
  }

  function ReadTimeout(x: Snapshot, s: Ledger, w: SpendInfo, tx: Transaction): (r: Result<Effect>)
    requires tx.inputs != []
    ensures r.Ok? ==> |r.value.roles| == |tx.outputs|
  {
    var _ :- Check(w.data == [] && x.utxoDaa < DAA_LIMIT - TIMEOUT_DELAY, TIMEOUT_DATA);
    var _ :- Age(x, tx, TIMEOUT_DELAY);
    Ok(Effect(Some(s.(phase := REFUNDING)), None, Auxiliary(|tx.outputs|), None, None, Some(x.utxoDaa)))
  }

  /** Outputs `first`, `first + 1`, ... refund records `from`, `from + 1`, ..., the first `n` of them. */
  predicate RefundsPaid(tx: Transaction, rs: seq<Record>, price: int, from: nat, first: nat, n: nat)
    requires from + n <= |rs|
  {
    forall i {:trigger rs[i]} | from <= i < from + n :: PaysAs(tx, first + i - from, Cost(rs[i].count, price) - REFUND_FEE, rs[i].key)
  }

  function RefundRoles(k: nat, last: bool): (roles: seq<Role>)
    ensures |roles| == k + 2
  {
    if last then seq(k, _ => BUYER_REFUND) + [CREATOR, EXECUTOR]
    else [AUXILIARY] + seq(k, _ => BUYER_REFUND) + [EXECUTOR]
  }

  function ReadRefund(s: Ledger, w: SpendInfo, tx: Transaction, fee: int, external: int): (r: Result<Effect>)
    ensures r.Ok? ==> |r.value.roles| == |tx.outputs|
  {
    var _ :- Check(w.data == [] && w.nextTail == [], REFUND_DATA);
    var b :- RefundBatch(s);
    var rs :- Records(s);
    var _ :- Check(|tx.outputs| == b.k + 2, REFUND_TOPOLOGY);
    var _ :- Check(0 <= s.cursor && RefundsPaid(tx, rs, s.config.ticketPrice, s.cursor, if b.last then 0 else 1, b.k),
                   PAYOUT_MISMATCH);
    var _ :- Check(b.last ==> PaysAs(tx, b.k, b.deposit, s.ownerKey), PAYOUT_MISMATCH);
    var _ :- Check(PaysAs(tx, b.k + 1, external + b.pool - fee, w.actorKey), PAYOUT_MISMATCH);
    Ok(Effect(if b.last then None else Some(s.(cursor := s.cursor + b.k)),
              if b.last then Some(Sil.REFUNDED) else None, RefundRoles(b.k, b.last), None, None, None))
  }

  function ReadAction(h: Hashes, x: Snapshot, s: Ledger, w: SpendInfo, tx: Transaction, fee: int, external: int): (r: Result<Effect>)
    requires Decodable(s) && x.tip.index >= 0 && tx.inputs != []
    ensures r.Ok? ==> |r.value.roles| == |tx.outputs|
  {
    match w.action
    case BUY => ReadBuy(s, w, tx)
    case CLOSE => ReadClose(x, s, w, tx)
    case DRAW_AND_PAY => ReadDraw(h, x, s, w, tx, fee)
    case TIMEOUT_REFUND => ReadTimeout(x, s, w, tx)
    case REFUND => ReadRefund(s, w, tx, fee, external)
  }

  predicate Allowed(m: Module, a: Action) {
    match m
    case OpenModule => a == BUY || a == CLOSE
    case SealedModule => a == DRAW_AND_PAY || a == TIMEOUT_REFUND
    case RefundingModule => a == REFUND
  }

  function Sum(values: seq<int>): int {
    if values == [] then 0 else Sum(values[..|values| - 1]) + values[|values| - 1]
  }

  /** External value and real fee; both need the values of the inputs, unless the state output is the only one. */
  function Funding(x: Snapshot, tx: Transaction, inputValues: Option<seq<int>>): Result<(int, int)>
    requires tx.inputs != []
  {
    match inputValues
    case Some(values) =>
      var _ :- Check(|values| == |tx.inputs| && values[0] == x.value, INPUT_VALUES);
      var _ :- Check(forall i | 0 <= i < |values| :: Payable(values[i]), INPUT_VALUE);
      var external := Sum(values[1..]);
      var fee := x.value + external - TotalOut(tx.outputs);
      var _ :- Check(fee >= 0, NEGATIVE_FEE);
      Ok((external, fee))
    case None =>
      var _ :- Check(|tx.inputs| == 1, INPUT_VALUES_REQUIRED);
      var fee := x.value - TotalOut(tx.outputs);
      var _ :- Check(fee >= 0, NEGATIVE_FEE);
      Ok((0, fee))
  }

  /** The successor comparison, or the absence of one. */
  function ReadSuccessor(h: Hashes, p: Profile, x: Snapshot, w: SpendInfo, tx: Transaction, f: Effect): Result<seq<Role>>
    requires |f.roles| == |tx.outputs| > 0
  {
    var family := Sil.CovOutputs(tx, x.covenantId);
    if f.next.Some? then
      var next := f.next.value;
      var _ :- ValidateLedger(next);
      ValidateIsValid(next);
      ValidIsDecodable(next);
      var m := PhaseModule(next.phase);
      var _ :- Check(m != w.to ==> w.nextTail == FrameOf(p, m).tail, FOREIGN_TEMPLATE);
      var o := tx.outputs[0];
      var _ :- Check(family == [0] && o.covenant.Some? && o.covenant.value.authorizingInput == 0
                     && o.scriptPublicKey == P2sh(h.blake2b(ScriptOf(next, p))) && o.value == ValueOf(next),
                     SUCCESSOR_MISMATCH);
      Ok(f.roles[0 := STATE])
    else
      var _ :- Check(f.terminal.Some? && family == [], TERMINAL_FAMILY);
      Ok(f.roles)
  }

  /** The spend's shape and witness, checked against the snapshot. */
  function CheckedSpend(p: Profile, x: Snapshot, tx: Transaction): (r: Result<SpendInfo>)
    ensures r.Ok? ==> tx.inputs != [] && tx.outputs != []
  {
    var _ :- Check(tx.version == 1 && 1 <= |tx.inputs| <= INPUT_LIMIT && |tx.outputs| >= 1, TX_TOPOLOGY);
    var _ :- Check(tx.inputs[0].previousOutpoint == x.tip, SPENT_OUTPOINT);
    var _ :- Check(DistinctInputs(tx), DUPLICATE_INPUT);
    var w :- DecodeSpend(p, tx.inputs[0].signatureScript, Some(x.origin));
    var _ :- Check(|tx.outputs| <= OutputLimit(w.to), OUTPUT_LIMIT);
    var _ :- Check(w.ledger == x.ledger, SPENT_LEDGER);
    var _ :- Check(Allowed(w.to, w.action), ACTION_PHASE);
    Ok(w)
  }

  /** External value and fee, with every amount in range and the fee witness honest. */
  function CheckedFunding(x: Snapshot, tx: Transaction, w: SpendInfo, inputValues: Option<seq<int>>): Result<(int, int)>
    requires tx.inputs != []
  {
    var funding :- Funding(x, tx, inputValues);
    var fee := funding.1;
    var _ :- Check(Payable(x.value), INPUT_VALUE);
    var _ :- Check(forall i | 0 <= i < |tx.outputs| :: Payable(tx.outputs[i].value), OUTPUT_VALUE);
    var _ :- Check(0 < fee <= MAX_PAY_FEE && fee == w.witnessFee, FEE_MISMATCH);
    Ok(funding)
  }

  /** The action's own checks, then the successor comparison. */
  function ReadStep(h: Hashes, p: Profile, x: Snapshot, s: Ledger, w: SpendInfo, tx: Transaction, fee: int, external: int)
    : Result<(Effect, seq<Role>)>
    requires Decodable(s) && x.tip.index >= 0 && tx.inputs != [] && tx.outputs != []
  {
    var f :- ReadAction(h, x, s, w, tx, fee, external);
    var roles :- ReadSuccessor(h, p, x, w, tx, f);
    Ok((f, roles))
  }

  function InterpretAccepted(h: Hashes, p: Profile, x: Snapshot, tx: Transaction, inputValues: Option<seq<int>>)
    : Result<Interpretation>
  {
    var _ :- Check(ValidTransaction(tx), INTEGER_RANGE);
    var s :- VerifySnapshot(h, p, x);
    var w :- CheckedSpend(p, x, tx);
    var funding :- CheckedFunding(x, tx, w, inputValues);
    VerifyIsVerified(h, p, x, s);
    var step :- ReadStep(h, p, x, s, w, tx, funding.1, funding.0);
    var f := step.0;
    Ok(Interpretation(w.action, w.to, w.actorKey, s, f.next, f.terminal, w.witnessFee, funding.1, funding.0, step.1,
                      f.draw, f.winner, f.timeoutAnchorDaa))
  }

  // ---------------------------------------------------------------- the source's interpretation, step by step

  /** The loop that ticks off a batch's refunds, marking the output of each. */
  method TickRefunds(tx: Transaction, rs: seq<Record>, price: int, from: nat, first: nat, k: nat, roles: seq<Role>)
    returns (ok: bool, marked: seq<Role>)
    requires from + k <= |rs| && |roles| == |tx.outputs|
    ensures ok == RefundsPaid(tx, rs, price, from, first, k)
    ensures |marked| == |roles|
    ensures ok ==> forall j | 0 <= j < |roles| :: marked[j] == if first <= j < first + k then BUYER_REFUND else roles[j]
  {
    marked := roles;
    for i := 0 to k
      invariant |marked| == |roles|
      invariant RefundsPaid(tx, rs, price, from, first, i)
      invariant forall j | 0 <= j < |roles| :: marked[j] == if first <= j < first + i then BUYER_REFUND else roles[j]
    {
      var r := rs[from + i];
      if !PaysAs(tx, first + i, Cost(r.count, price) - REFUND_FEE, r.key) {
        return false, marked;
      }
      marked := marked[first + i := BUYER_REFUND];
    }
    ok := true;
  }

  /** The switch: it sets the successor or the terminal and marks the outputs it constrains. */
  method InterpretAction(h: Hashes, x: Snapshot, s: Ledger, w: SpendInfo, tx: Transaction, fee: int, external: int)
    returns (r: Result<Effect>)
    requires Decodable(s) && x.tip.index >= 0 && tx.inputs != []
    ensures r == ReadAction(h, x, s, w, tx, fee, external)
  {
    hide DrawWinner, AppendPurchase, Records, Cost, PaysAs, RefundBatch, RefundsPaid, Age, DataU32, TargetSeq;
    var next: Option<Ledger>, terminal: Option<Terminal>, roles := None, None, Auxiliary(|tx.outputs|);
    var draw: Option<DrawInfo>, winner: Option<WinnerInfo>, timeoutAnchorDaa: Option<int> := None, None, None;
    match w.action {
      case BUY =>
        var _ :- Check(|tx.inputs| >= 2 && w.nextTail == [], BUY_TOPOLOGY);
        var quantity :- DataU32(w.data);
        var bought :- AppendPurchase(s, quantity, w.actorKey);
        next := Some(bought);
      case CLOSE =>
        var _ :- Check(|tx.inputs| >= 2 && w.data == [], CLOSE_TOPOLOGY);
        if s.sold < s.config.ticketCap && s.purchaseCount < s.config.purchaseCap {
          var _ :- Check(s.config.closeEligibleDaa - 1 <= tx.lockTime < DAA_LIMIT
                         && tx.inputs[0].sequence != MAX_SEQUENCE, CLOSE_LOCKTIME);
          var _ :- Check(x.currentDaa >= s.config.closeEligibleDaa, CLOSE_TOO_EARLY);
        }
        if s.sold == 0 {
          var _ :- Check(w.nextTail == [], EMPTY_TAIL);
          terminal := Some(Sil.EMPTY);
          var _ :- Check(PaysAs(tx, 0, DEPOSIT, s.ownerKey), PAYOUT_MISMATCH);
          PaysInside(tx, 0, DEPOSIT, s.ownerKey);
          roles := roles[0 := CREATOR];
        } else {
          next := Some(s.(phase := if s.sold >= s.config.minTickets then SEALED else REFUNDING));
        }
      case DRAW_AND_PAY =>
        r := ReadDraw(h, x, s, w, tx, fee);
        return;
      case TIMEOUT_REFUND =>
        var _ :- Check(w.data == [] && x.utxoDaa < DAA_LIMIT - TIMEOUT_DELAY, TIMEOUT_DATA);
        var _ :- Age(x, tx, TIMEOUT_DELAY);
        next, timeoutAnchorDaa := Some(s.(phase := REFUNDING)), Some(x.utxoDaa);
      case REFUND =>
        var _ :- Check(w.data == [] && w.nextTail == [], REFUND_DATA);
        var b :- RefundBatch(s);
        var rs :- Records(s);
        var _ :- Check(|tx.outputs| == b.k + 2, REFUND_TOPOLOGY);
        BatchFits(s);
        var first := if b.last then 0 else 1;
        var paid, marked := TickRefunds(tx, rs, s.config.ticketPrice, s.cursor, first, b.k, roles);
        var _ :- Check(paid, PAYOUT_MISMATCH);
        roles := marked;
        if b.last {
          terminal := Some(Sil.REFUNDED);
          var _ :- Check(PaysAs(tx, b.k, b.deposit, s.ownerKey), PAYOUT_MISMATCH);
          roles := roles[b.k := CREATOR];
        } else {
          next := Some(s.(cursor := s.cursor + b.k));
        }
        var _ :- Check(PaysAs(tx, b.k + 1, external + b.pool - fee, w.actorKey), PAYOUT_MISMATCH);
        roles := roles[b.k + 1 := EXECUTOR];
        assert roles == RefundRoles(b.k, b.last);
    }
    r := Ok(Effect(next, terminal, roles, draw, winner, timeoutAnchorDaa));
  }

  lemma PaysInside(tx: Transaction, index: nat, value: int, key: Bytes)
    requires PaysAs(tx, index, value, key)
    ensures index < |tx.outputs|
  {
  }

  method Interpret(h: Hashes, p: Profile, x: Snapshot, tx: Transaction, inputValues: Option<seq<int>>)
    returns (r: Result<Interpretation>)
    ensures r == InterpretAccepted(h, p, x, tx, inputValues)
  {
    hide ValidTransaction, VerifySnapshot, CheckedSpend, CheckedFunding, ReadAction, ReadSuccessor;
    var _ :- Check(ValidTransaction(tx), INTEGER_RANGE);
    var s :- VerifySnapshot(h, p, x);
    var w :- CheckedSpend(p, x, tx);
    var funding :- CheckedFunding(x, tx, w, inputValues);
    VerifiedIndex(h, p, x, s);
    var f :- InterpretAction(h, x, s, w, tx, funding.1, funding.0);
    var roles :- ReadSuccessor(h, p, x, w, tx, f);
    r := Ok(Interpretation(w.action, w.to, w.actorKey, s, f.next, f.terminal, w.witnessFee, funding.1, funding.0, roles,
                           f.draw, f.winner, f.timeoutAnchorDaa));
  }
}
