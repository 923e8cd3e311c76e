/** Building the transaction of an action (scripts/core/src/builders.ts). */
module Builders {
  import opened Results
  import opened Bytes
  import opened Layout
  import opened State
  import opened Directory
  import opened Scripts
  import opened Tx
  import opened Frames
  import opened Protocol

  datatype Funding = Funding(outpoint: Outpoint, value: int, spk: Spk, daa: int, covenantId: Option<Bytes>)

  datatype Draft = Draft(transaction: Transaction, inputUtxos: seq<Funding>, authorizedInputIndices: seq<int>,
                         transition: Transition, origin: Outpoint, action: Action, walletDebit: int, fee: int)

  const FUNDING_INPUT_BUDGET := 10

  // ---------------------------------------------------------------- the witness

  function KeyPush(key: Bytes): Result<Bytes> {
    var k :- KeyChecked(key);
    PushBytes(k)
  }

  /** Action arguments common to the three templates, after the origin that only OPEN takes. */
  function ArgumentBytes(op: Operation, t: Transition, tailLength: nat, fee: int): Result<Bytes> {
    var length :- PushInt(tailLength);
    var nextTail :- PushBytes(t.foreignTail);
    var data :- PushBytes(t.data);
    var actor :- KeyPush(op.actorKey);
    var feeItem :- PushInt(fee);
    Ok(length + (nextTail + (data + (actor + feeItem))))
  }

  function OriginBytes(origin: Outpoint): Result<Bytes> {
    var txId :- KeyPush(origin.transactionId);
    var index :- PushInt(origin.index);
    Ok(txId + index)
  }

  function Witness(p: Profile, x: Snapshot, op: Operation, t: Transition, fee: int): Result<Bytes> {
    var s :- DecodeLedger(x.ledger);
    var _ :- Check(s.phase in {OPEN, SEALED, REFUNDING}, PHASE);
    EncodeOfDecode(x.ledger);
    var m := PhaseModule(s.phase);
    var f := FrameOf(p, m);
    var action :- PushInt(ActionCode(op.action));
    var origin :- if m == OpenModule then OriginBytes(x.origin) else Ok([]);
    var arguments :- ArgumentBytes(op, t, |f.tail|, fee);
    var tag :- PushBytes(f.tag);
    var redeem :- PushBytes(ScriptOf(s, p));
    var bytes := action + (origin + (arguments + (tag + redeem)));
    var _ :- Check(|bytes| <= 250000, SIGNATURE_SCRIPT_LIMIT);
    Ok(bytes)
  }

  // ---------------------------------------------------------------- funding

  /** An outpoint that can be keyed. */
  function OutpointChecked(o: Outpoint): Result<()> {
    var _ :- Check(|o.transactionId| == 32, BYTE_LENGTH);
    Check(0 <= o.index <= 0xffff_ffff, INTEGER_RANGE)
  }

  predicate Unencumbered(f: Funding) {
    f.covenantId == None || f.covenantId == Some(ZERO)
  }

  predicate Seen(funds: seq<Funding>, o: Outpoint) {
    exists i | 0 <= i < |funds| :: funds[i].outpoint == o
  }

  /** The checks on one funding output. */
  function FundChecked(f: Funding, key: Bytes, taken: bool): Result<()> {
    var _ :- Check(0 < f.value < VALUE_LIMIT, FUNDING_VALUE);
    var _ :- Check(Unencumbered(f), FUNDING_COVENANT);
    var _ :- KeyChecked(key);
    var _ :- Check(f.spk == P2pk(key), FUNDING_OWNER);
    var _ :- OutpointChecked(f.outpoint);
    Check(!taken, DUPLICATE_INPUT)
  }

  function FundsChecked(funds: seq<Funding>, key: Bytes): Result<()> {
    if funds == [] then Ok(())
    else
      var before, f := funds[..|funds| - 1], funds[|funds| - 1];
      var _ :- FundsChecked(before, key);
      FundChecked(f, key, Seen(before, f.outpoint))
  }

  function FundingInputs(funds: seq<Funding>, key: Bytes): Result<()> {
    var _ :- Check(|funds| <= 8, INTEGER_RANGE);
    FundsChecked(funds, key)
  }

  method CheckFunding(funds: seq<Funding>, key: Bytes) returns (r: Result<()>)
    ensures r == FundingInputs(funds, key)
  {
    if |funds| > 8 {
      return Err(INTEGER_RANGE);
    }
    var seen: set<Outpoint> := {};
    for i := 0 to |funds|
      invariant FundsChecked(funds[..i], key) == Ok(())
      invariant forall o :: o in seen <==> Seen(funds[..i], o)
    {
      var f := funds[i];
      assert funds[..i + 1][..i] == funds[..i];
      r := FundChecked(f, key, f.outpoint in seen);
      if r.Err? {
        FirstFailure(funds, key, i + 1);
        return;
      }
      SeenNext(funds[..i + 1]);
      seen := seen + {f.outpoint};
    }
    assert funds[..|funds|] == funds;
    r := Ok(());
  }

  lemma SeenNext(funds: seq<Funding>)
    requires funds != []
    ensures forall o :: Seen(funds, o) <==> Seen(funds[..|funds| - 1], o) || o == funds[|funds| - 1].outpoint
  {
    var n := |funds| - 1;
    forall o
      ensures Seen(funds, o) <==> Seen(funds[..n], o) || o == funds[n].outpoint
    {
      if i :| 0 <= i < n && funds[..n][i].outpoint == o {
        assert funds[i].outpoint == o;
      }
      if i :| 0 <= i < |funds| && funds[i].outpoint == o {
        assert i < n ==> funds[..n][i].outpoint == o;
      }
    }
  }

  /** The first failing output decides. */
  lemma {:induction false} FirstFailure(funds: seq<Funding>, key: Bytes, n: nat)
    requires n <= |funds| && FundsChecked(funds[..n], key).Err?
    ensures FundsChecked(funds, key) == FundsChecked(funds[..n], key)
    decreases |funds|
  {
    if n == |funds| {
      assert funds[..n] == funds;
    } else {
      var before := funds[..|funds| - 1];
      assert before[..n] == funds[..n];
      FirstFailure(before, key, n);
    }
  }

  function TotalFunding(funds: seq<Funding>): int {
    if funds == [] then 0 else TotalFunding(funds[..|funds| - 1]) + funds[|funds| - 1].value
  }

  // ---------------------------------------------------------------- the transaction

  function StateOutput(h: Hashes, p: Profile, x: Snapshot, next: Option<Ledger>): (o: seq<Output>)
    requires next.Some? ==> ValidLedger(next.value) && Decodable(next.value)
  {
    match next
    case None => []
    case Some(n) => [Output(ValueOf(n), P2sh(h.blake2b(ScriptOf(n, p))), Some(Binding(x.covenantId, 0)))]
  }

  function PaymentOutputs(payments: seq<Payment>): (os: seq<Output>)
    ensures |os| == |payments|
  {
    seq(|payments|, i requires 0 <= i < |payments| => Output(payments[i].value, payments[i].spk, None))
  }

  function FundingTxInputs(funds: seq<Funding>): (ins: seq<Input>)
    ensures |ins| == |funds|
  {
    seq(|funds|, i requires 0 <= i < |funds| =>
      Input(funds[i].outpoint, [], 0, Some(FUNDING_INPUT_BUDGET), None))
  }

  function Assembled(h: Hashes, p: Profile, x: Snapshot, t: Transition, signature: Bytes, budget: int, funds: seq<Funding>,
                     payload: Bytes): Transaction
    requires t.next.Some? ==> ValidLedger(t.next.value) && Decodable(t.next.value)
  {
    Transaction(1, [Input(x.tip, signature, t.sequence, Some(budget), None)] + FundingTxInputs(funds),
                StateOutput(h, p, x, t.next) + PaymentOutputs(t.payments), t.lockTime, Zeros(20), 0, payload, 0)
  }

  /** Payments that come back to the actor: change, and the executor's share of a refund. */
  function Returned(op: Operation, payments: seq<Payment>): int {
    if payments == [] then 0
    else
      var v := payments[|payments| - 1];
      Returned(op, payments[..|payments| - 1])
      + if v.role == CHANGE || (op.action == REFUND && v.role == EXECUTOR) then v.value else 0
  }

  function Indices(n: nat): seq<int> {
    seq(n, i => i + 1)
  }

  predicate BudgetsCover(tx: Transaction, authorized: seq<int>) {
    forall k | 0 <= k < |authorized| ::
      var i := authorized[k];
      0 <= i < |tx.inputs| && (var b := tx.inputs[i].computeBudget; b.Some? && b.value >= FUNDING_INPUT_BUDGET)
  }

  function AssertDraft(tx: Transaction, inputUtxos: seq<Funding>, authorized: seq<int>, fee: int): Result<()> {
    var _ :- Check(ValidTransaction(tx), INTEGER_RANGE);
    var _ :- Check(|inputUtxos| == |tx.inputs|, INPUT_MATERIAL);
    var _ :- Check(DistinctInputs(tx), DUPLICATE_INPUT);
    var _ :- Check(forall i | 0 <= i < |inputUtxos| :: inputUtxos[i].outpoint == tx.inputs[i].previousOutpoint, UTXO_MISMATCH);
    var _ :- Check(TotalFunding(inputUtxos) - TotalOut(tx.outputs) == fee && fee > 0, FEE_MISMATCH);
    var _ :- Check(forall i | 0 <= i < |tx.outputs| :: Payable(tx.outputs[i].value), OUTPUT_VALUE);
    Check(BudgetsCover(tx, authorized), FUNDING_BUDGET_REQUIRED)
  }

  function BuildAction(h: Hashes, p: Profile, x: Snapshot, op: Operation, fee: int, funds: seq<Funding>, budget: int,
                       payload: Bytes): Result<Draft>
  {
    var s :- VerifySnapshot(h, p, x);
    var _ :- Check(0 <= budget <= 65535, INTEGER_RANGE);
    var _ :- FundingInputs(funds, op.actorKey);
    var total := TotalFunding(funds);
    var t :- TransitionOf(h, p, x, op, fee, total);
    var _ :- Check(!Seen(funds, x.tip), DUPLICATE_INPUT);
    var signature :- Witness(p, x, op, t, fee);
    PlannedNext(h, p, x, op, fee, total);
    var tx := Assembled(h, p, x, t, signature, budget, funds, payload);
    var input0 := Funding(x.tip, x.value, x.scriptPublicKey, x.utxoDaa, Some(x.covenantId));
    var returned := Returned(op, t.payments);
    var d := Draft(tx, [input0] + funds, Indices(|funds|), t, x.origin, op.action,
                   if total > returned then total - returned else 0, fee);
    var _ :- AssertDraft(d.transaction, d.inputUtxos, d.authorizedInputIndices, d.fee);
    Ok(d)
  }

  /** The successor of a successful transition is a valid ledger. */
  lemma PlannedNext(h: Hashes, p: Profile, x: Snapshot, op: Operation, fee: int, external: int)
    ensures var t := TransitionOf(h, p, x, op, fee, external);
            t.Ok? && t.value.next.Some? ==> ValidLedger(t.value.next.value) && Decodable(t.value.next.value)
  {
    hide ValidLedger, ValidateLedger, VerifySnapshot, Plan, AvailableActions, Change, Decodable;
    var t := TransitionOf(h, p, x, op, fee, external);
    if t.Ok? && t.value.next.Some? {
      ValidateIsValid(t.value.next.value);
      ValidIsDecodable(t.value.next.value);
    }
  }

  /** The source fills a fresh transaction in place: lock time and payload, then inputs, then outputs. */
  method PrepareAction(h: Hashes, p: Profile, x: Snapshot, op: Operation, fee: int, funds: seq<Funding>, budget: int,
                       payload: Bytes) returns (r: Result<Draft>)
    ensures r == BuildAction(h, p, x, op, fee, funds, budget, payload)
  {
    hide VerifySnapshot, TransitionOf, Witness, FundsChecked, FundingInputs, AssertDraft, Returned, TotalFunding,
      ValueOf, ScriptOf, P2sh, ValidLedger, Decodable;
    var _ :- VerifySnapshot(h, p, x);
    var _ :- Check(0 <= budget <= 65535, INTEGER_RANGE);
    var _ :- CheckFunding(funds, op.actorKey);
    var total := TotalFunding(funds);
    var t :- PrepareTransition(h, p, x, op, fee, total);
    var _ :- Check(forall i | 0 <= i < |funds| :: funds[i].outpoint != x.tip, DUPLICATE_INPUT);
    var tx := Transaction(1, [], [], 0, Zeros(20), 0, [], 0);
    tx := tx.(lockTime := t.lockTime, payload := payload);
    var signature :- Witness(p, x, op, t, fee);
    tx := tx.(inputs := tx.inputs + [Input(x.tip, signature, t.sequence, Some(budget), None)]);
    tx := tx.(inputs := tx.inputs + FundingTxInputs(funds));
    PlannedNext(h, p, x, op, fee, total);
    if t.next.Some? {
      tx := tx.(outputs := tx.outputs + [Output(ValueOf(t.next.value), P2sh(h.blake2b(ScriptOf(t.next.value, p))),
                                               Some(Binding(x.covenantId, 0)))]);
    }
    tx := tx.(outputs := tx.outputs + PaymentOutputs(t.payments));
    assert tx.outputs == StateOutput(h, p, x, t.next) + PaymentOutputs(t.payments);
    assert tx == Assembled(h, p, x, t, signature, budget, funds, payload);
    var input0 := Funding(x.tip, x.value, x.scriptPublicKey, x.utxoDaa, Some(x.covenantId));
    var d := Draft(tx, [input0] + funds, Indices(|funds|), t, x.origin, op.action, 0, fee);
    var change := Returned(op, t.payments);
    d := d.(walletDebit := if total > change then total - change else 0);
    var _ :- AssertDraft(d.transaction, d.inputUtxos, d.authorizedInputIndices, d.fee);
    r := Ok(d);
  }
}
