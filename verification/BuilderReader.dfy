/** The client's reader understands every transaction that its builder makes. */
module BuilderReader {
  import opened Results
  import opened Bytes
  import opened Layout
  import opened State
  import opened Directory
  import opened Scripts
  import opened Tx
  import opened Frames
  import opened Protocol
  import opened Builders
  import opened ContractSteps
  import opened Spends
  import opened ReaderWitness
  import opened ContractReader
  import Sil
  import Open
  import Sealed
  import Draws
  import Lineage
  import A = Accepted

  // ---------------------------------------------------------------- the witness

  function ArgumentItems(op: Operation, t: Transition, tailLength: nat, fee: nat): seq<Bytes> {
    [IntItem(tailLength), t.foreignTail, t.data, op.actorKey, IntItem(fee)]
  }

  lemma BytesPush(b: Bytes)
    requires PushBytes(b).Ok?
    ensures Pushes(PushBytes(b).value) == Ok([b])
  {
    PushBytesEncodes(b);
    PushesOne(PushBytes(b).value, b);
  }

  lemma IntPush(n: nat)
    requires n < 0x8000_0000_0000_0000
    ensures PushInt(n).Ok? && Pushes(PushInt(n).value) == Ok([IntItem(n)])
  {
    PushIntEncodes(n);
    PushesOne(PushInt(n).value, IntItem(n));
  }

  lemma ArgumentPushes(op: Operation, t: Transition, tailLength: nat, fee: nat)
    requires tailLength <= 65535 && fee <= MAX_PAY_FEE
    requires ArgumentBytes(op, t, tailLength, fee).Ok?
    ensures Pushes(ArgumentBytes(op, t, tailLength, fee).value) == Ok(ArgumentItems(op, t, tailLength, fee))
    ensures |op.actorKey| == KEY_BYTES
  {
    hide Pushes, PushBytes, PushInt, IntItem;
    var length, feeItem := PushInt(tailLength).value, PushInt(fee).value;
    var nextTail, data, actor := PushBytes(t.foreignTail).value, PushBytes(t.data).value, PushBytes(op.actorKey).value;
    IntPush(tailLength);
    IntPush(fee);
    BytesPush(t.foreignTail);
    BytesPush(t.data);
    BytesPush(op.actorKey);
    PushesAppend(actor, feeItem);
    PushesAppend(data, actor + feeItem);
    PushesAppend(nextTail, data + (actor + feeItem));
    PushesAppend(length, nextTail + (data + (actor + feeItem)));
    assert [IntItem(tailLength)] + ([t.foreignTail] + ([t.data] + ([op.actorKey] + [IntItem(fee)])))
        == ArgumentItems(op, t, tailLength, fee);
  }

  lemma OriginPushes(origin: Outpoint)
    requires OriginBytes(origin).Ok? && 0 <= origin.index <= 0x7fff_ffff
    ensures Pushes(OriginBytes(origin).value) == Ok([origin.transactionId, IntItem(origin.index)])
  {
    hide Pushes, PushBytes, PushInt, IntItem;
    IntPush(origin.index);
    BytesPush(origin.transactionId);
    PushesAppend(PushBytes(origin.transactionId).value, PushInt(origin.index).value);
    assert [origin.transactionId] + [IntItem(origin.index)] == [origin.transactionId, IntItem(origin.index)];
  }

  function OriginItems(m: Module, origin: Outpoint): seq<Bytes>
    requires 0 <= origin.index
  {
    if m == OpenModule then [origin.transactionId, IntItem(origin.index)] else []
  }

  function WitnessItems(p: Profile, x: Snapshot, s: Ledger, op: Operation, t: Transition, fee: nat): seq<Bytes>
    requires Decodable(s) && 0 <= x.origin.index
  {
    var m := PhaseModule(s.phase);
    [IntItem(ActionCode(op.action))]
    + OriginItems(m, x.origin)
    + ArgumentItems(op, t, |FrameOf(p, m).tail|, fee)
    + [FrameOf(p, m).tag, ScriptOf(s, p)]
  }

  lemma NoPushes()
    ensures Pushes([]) == Ok([])
  {
  }

  /** The parts that a built witness joins. */
  lemma WitnessParts(p: Profile, x: Snapshot, s: Ledger, op: Operation, t: Transition, fee: nat)
    requires Decodable(s) && x.ledger == LedgerBytes(s) && Witness(p, x, op, t, fee).Ok?
    ensures var m := PhaseModule(s.phase);
            && PushInt(ActionCode(op.action)).Ok? && OriginPart(m, x.origin).Ok?
            && ArgumentBytes(op, t, |FrameOf(p, m).tail|, fee).Ok? && PushBytes(FrameOf(p, m).tag).Ok?
            && PushBytes(ScriptOf(s, p)).Ok?
            && Witness(p, x, op, t, fee).value
            == PushInt(ActionCode(op.action)).value
               + (OriginPart(m, x.origin).value
                  + (ArgumentBytes(op, t, |FrameOf(p, m).tail|, fee).value
                     + (PushBytes(FrameOf(p, m).tag).value + PushBytes(ScriptOf(s, p)).value)))
    ensures |Witness(p, x, op, t, fee).value| <= 250000
  {
    hide PushBytes, PushInt, LedgerBytes, DecodeLedger, ScriptOf, OriginBytes, ArgumentBytes, Decodable;
    DecodeOfEncode(s);
  }

  function OriginPart(m: Module, origin: Outpoint): Result<Bytes> {
    if m == OpenModule then OriginBytes(origin) else Ok([])
  }

  lemma OriginPartPushes(m: Module, origin: Outpoint)
    requires OriginPart(m, origin).Ok? && 0 <= origin.index <= 0x7fff_ffff
    ensures Pushes(OriginPart(m, origin).value) == Ok(OriginItems(m, origin))
  {
    hide Pushes, OriginBytes, IntItem;
    if m == OpenModule {
      OriginPushes(origin);
    } else {
      NoPushes();
    }
  }

  lemma JoinPushes(a: Bytes, b: Bytes, c: Bytes, d: Bytes, e: Bytes, ia: seq<Bytes>, ib: seq<Bytes>, ic: seq<Bytes>,
                   id: Bytes, ie: Bytes)
    requires Pushes(a) == Ok(ia) && Pushes(b) == Ok(ib) && Pushes(c) == Ok(ic) && Pushes(d) == Ok([id])
    requires Pushes(e) == Ok([ie])
    ensures Pushes(a + (b + (c + (d + e)))) == Ok(ia + ib + ic + [id, ie])
  {
    hide Pushes;
    PushesAppend(d, e);
    PushesAppend(c, d + e);
    PushesAppend(b, c + (d + e));
    PushesAppend(a, b + (c + (d + e)));
    assert ia + (ib + (ic + ([id] + [ie]))) == ia + ib + ic + [id, ie];
  }

  /** The items that a witness decodes to are the ones that it was built from. */
  lemma WitnessPushes(p: Profile, x: Snapshot, s: Ledger, op: Operation, t: Transition, fee: nat)
    requires Decodable(s) && x.ledger == LedgerBytes(s) && 0 <= x.origin.index <= 0x7fff_ffff && fee <= MAX_PAY_FEE
    requires Witness(p, x, op, t, fee).Ok?
    ensures Pushes(Witness(p, x, op, t, fee).value) == Ok(WitnessItems(p, x, s, op, t, fee))
    ensures |Witness(p, x, op, t, fee).value| <= 250000 && |op.actorKey| == KEY_BYTES
  {
    hide Pushes, PushBytes, PushInt, IntItem, Witness, LedgerBytes, ScriptOf, OriginPart, ArgumentBytes, ArgumentItems,
      Decodable;
    WitnessParts(p, x, s, op, t, fee);
    var m := PhaseModule(s.phase);
    var f := FrameOf(p, m);
    IntPush(ActionCode(op.action));
    OriginPartPushes(m, x.origin);
    ArgumentPushes(op, t, |f.tail|, fee);
    BytesPush(f.tag);
    BytesPush(ScriptOf(s, p));
    JoinPushes(PushInt(ActionCode(op.action)).value, OriginPart(m, x.origin).value,
               ArgumentBytes(op, t, |f.tail|, fee).value, PushBytes(f.tag).value, PushBytes(ScriptOf(s, p)).value,
               [IntItem(ActionCode(op.action))], OriginItems(m, x.origin), ArgumentItems(op, t, |f.tail|, fee), f.tag,
               ScriptOf(s, p));
  }

  /** The decoded witness names the operation that was built. */
  lemma WitnessReads(p: Profile, x: Snapshot, s: Ledger, op: Operation, t: Transition, fee: nat)
    requires Decodable(s) && s.phase in {OPEN, SEALED, REFUNDING} && x.ledger == LedgerBytes(s)
    requires GoodOrigin(x.origin) && fee <= MAX_PAY_FEE && Witness(p, x, op, t, fee).Ok?
    ensures A.DecodeSpend(p, Witness(p, x, op, t, fee).value, Some(x.origin))
         == Ok(A.SpendInfo(op.action, PhaseModule(s.phase), s, LedgerBytes(s), x.origin, op.actorKey, t.data, t.foreignTail,
                           fee))
  {
    hide Pushes, IntItem, LedgerBytes, ScriptOf, Witness, A.DecodeSpend, Decodable, ScriptNumber;
    var sig, m := Witness(p, x, op, t, fee).value, PhaseModule(s.phase);
    WitnessPushes(p, x, s, op, t, fee);
    var items := WitnessItems(p, x, s, op, t, fee);
    IntItemIsNumber(ActionCode(op.action));
    IntItemIsNumber(|FrameOf(p, m).tail|);
    IntItemIsNumber(fee);
    IntItemIsNumber(x.origin.index);
    ActionCodes(op.action);
    if m == OpenModule {
      DecodeOpenSpend(p, sig, s, x.origin,
                      Open.Args(ActionCode(op.action), x.origin.transactionId, x.origin.index, |p.open.tail|, t.foreignTail,
                                t.data, op.actorKey, fee));
    } else {
      DecodeSealedSpend(p, sig, s, x.origin,
                        Sealed.Args(ActionCode(op.action), |FrameOf(p, m).tail|, t.foreignTail, t.data, op.actorKey, fee));
    }
  }

  lemma ActionCodes(a: Action)
    ensures A.ActionOf(ActionCode(a)) == Ok(a)
  {
  }

  // ---------------------------------------------------------------- shape and funding

  /** What a successful build consists of. */
  lemma BuiltParts(h: Hashes, p: Profile, x: Snapshot, op: Operation, fee: int, funds: seq<Funding>, budget: int,
                   payload: Bytes) returns (s: Ledger, signature: Bytes)
    requires BuildAction(h, p, x, op, fee, funds, budget, payload).Ok?
    ensures VerifySnapshot(h, p, x) == Ok(s)
    ensures var d := BuildAction(h, p, x, op, fee, funds, budget, payload).value;
            var t := d.transition;
            && TransitionOf(h, p, x, op, fee, TotalFunding(funds)) == Ok(t)
            && FundingInputs(funds, op.actorKey).Ok?
            && Witness(p, x, op, t, fee) == Ok(signature)
            && (t.next.Some? ==> ValidLedger(t.next.value) && Decodable(t.next.value))
            && d.transaction == Assembled(h, p, x, t, signature, budget, funds, payload)
            && ValidTransaction(d.transaction) && DistinctInputs(d.transaction)
            && x.value + TotalFunding(funds) - TotalOut(d.transaction.outputs) == fee > 0 && d.fee == fee
            && (forall i | 0 <= i < |d.transaction.outputs| :: Payable(d.transaction.outputs[i].value))
  {
    hide VerifySnapshot, TransitionOf, FundingInputs, Witness, ValidTransaction, DistinctInputs, TotalOut, Returned,
      BudgetsCover, ValidLedger, Decodable, Assembled, Seen;
    s := VerifySnapshot(h, p, x).value;
    signature := Witness(p, x, op, BuildAction(h, p, x, op, fee, funds, budget, payload).value.transition, fee).value;
    PlannedNext(h, p, x, op, fee, TotalFunding(funds));
    var input0 := Funding(x.tip, x.value, x.scriptPublicKey, x.utxoDaa, Some(x.covenantId));
    TotalWith(input0, funds);
  }

  lemma {:induction false} TotalWith(f: Funding, funds: seq<Funding>)
    ensures TotalFunding([f] + funds) == f.value + TotalFunding(funds)
  {
    if funds == [] {
      assert [f] + funds == [f] && [f][..0] == [];
    } else {
      var n := |funds| - 1;
      assert ([f] + funds)[..|funds|] == [f] + funds[..n];
      TotalWith(f, funds[..n]);
    }
  }

  function FundValues(funds: seq<Funding>): (vs: seq<int>)
    ensures |vs| == |funds|
  {
    seq(|funds|, i requires 0 <= i < |funds| => funds[i].value)
  }

  lemma {:induction false} SumOfFunds(funds: seq<Funding>)
    ensures A.Sum(FundValues(funds)) == TotalFunding(funds)
  {
    if funds != [] {
      var n := |funds| - 1;
      SumOfFunds(funds[..n]);
      assert FundValues(funds)[..n] == FundValues(funds[..n]);
    }
  }

  lemma {:induction false} FundsPositive(funds: seq<Funding>, key: Bytes)
    requires FundsChecked(funds, key).Ok?
    ensures forall i | 0 <= i < |funds| :: 0 < funds[i].value < VALUE_LIMIT && Unencumbered(funds[i])
    ensures funds != [] <==> TotalFunding(funds) > 0
    ensures TotalFunding(funds) >= 0
  {
    if funds != [] {
      FundsPositive(funds[..|funds| - 1], key);
    }
  }

  /** The values of the transaction's inputs. */
  function InputValues(x: Snapshot, funds: seq<Funding>): seq<int> {
    [x.value] + FundValues(funds)
  }

  lemma FundingRead(x: Snapshot, tx: Transaction, funds: seq<Funding>, key: Bytes, w: A.SpendInfo, fee: int)
    requires FundingInputs(funds, key).Ok? && Payable(x.value) && 0 < fee <= MAX_PAY_FEE && w.witnessFee == fee
    requires |tx.inputs| == 1 + |funds|
    requires x.value + TotalFunding(funds) - TotalOut(tx.outputs) == fee
    requires forall i | 0 <= i < |tx.outputs| :: Payable(tx.outputs[i].value)
    ensures A.CheckedFunding(x, tx, w, Some(InputValues(x, funds))) == Ok((TotalFunding(funds), fee))
  {
    hide TotalOut, A.Sum, FundsChecked;
    var vs := InputValues(x, funds);
    FundsPositive(funds, key);
    SumOfFunds(funds);
    assert vs[1..] == FundValues(funds);
    forall i | 0 <= i < |vs|
      ensures Payable(vs[i])
    {
      if i > 0 {
        assert vs[i] == funds[i - 1].value;
      }
    }
  }

  lemma SpendRead(h: Hashes, p: Profile, x: Snapshot, s: Ledger, op: Operation, t: Transition, fee: int, tx: Transaction)
    requires Verified(h, p, x, s) && 0 < fee <= MAX_PAY_FEE
    requires Witness(p, x, op, t, fee).Ok?
    requires tx.version == 1 && 1 <= |tx.inputs| <= INPUT_LIMIT && DistinctInputs(tx)
    requires tx.inputs[0].previousOutpoint == x.tip
    requires tx.inputs[0].signatureScript == Witness(p, x, op, t, fee).value
    requires 1 <= |tx.outputs| <= OutputLimit(PhaseModule(s.phase))
    requires A.Allowed(PhaseModule(s.phase), op.action)
    ensures A.CheckedSpend(p, x, tx)
         == Ok(A.SpendInfo(op.action, PhaseModule(s.phase), s, x.ledger, x.origin, op.actorKey, t.data, t.foreignTail, fee))
  {
    hide LedgerBytes, Witness, A.DecodeSpend, Decodable, DistinctInputs, RootPreimage, P2sh, ValueOf, StartAt, ScriptOf,
      RootScript;
    WitnessReads(p, x, s, op, t, fee);
  }

  // ---------------------------------------------------------------- successors and roles

  function ReaderRole(r: Role): Role {
    if r == CHANGE then AUXILIARY else r
  }

  /** The roles that the reader gives to a built transaction's outputs. */
  function ExpectedRoles(t: Transition): (roles: seq<Role>) {
    (if t.next.Some? then [STATE] else [])
    + seq(|t.payments|, i requires 0 <= i < |t.payments| => ReaderRole(t.payments[i].role))
  }

  lemma {:induction false} FamilyOfBuilt(tx: Transaction, id: Bytes, state: bool)
    requires state ==> |tx.outputs| > 0 && tx.outputs[0].covenant == Some(Binding(id, 0))
    requires forall i | (if state then 1 else 0) <= i < |tx.outputs| :: tx.outputs[i].covenant == None
    ensures Sil.CovOutputs(tx, id) == (if state then [0] else [])
    ensures Sil.AuthOutputs(tx, 0) == (if state then [0] else [])
  {
    var cov := seq(|tx.outputs|, i requires 0 <= i < |tx.outputs| =>
      tx.outputs[i].covenant.Some? && tx.outputs[i].covenant.value.covenantId == id);
    var auth := seq(|tx.outputs|, i requires 0 <= i < |tx.outputs| =>
      tx.outputs[i].covenant.Some? && tx.outputs[i].covenant.value.authorizingInput == 0);
    if state {
      Sil.WhereFirst(cov);
      Sil.WhereFirst(auth);
    } else {
      Sil.WhereNone(cov);
      Sil.WhereNone(auth);
    }
  }

  lemma SuccessorRead(h: Hashes, p: Profile, x: Snapshot, t: Transition, w: A.SpendInfo, tx: Transaction, f: A.Effect)
    requires t.next.Some? ==> ValidLedger(t.next.value) && Decodable(t.next.value)
    requires tx.outputs == StateOutput(h, p, x, t.next) + PaymentOutputs(t.payments) != []
    requires f.next == t.next && (t.next.Some? || f.terminal.Some?) && |f.roles| == |tx.outputs|
    requires t.next.Some? && PhaseModule(t.next.value.phase) != w.to ==> w.nextTail == TailOf(p, t.next.value)
    ensures A.ReadSuccessor(h, p, x, w, tx, f) == Ok(if t.next.Some? then f.roles[0 := STATE] else f.roles)
  {
    hide ValidLedger, Decodable, ValidateLedger, ValueOf, ScriptOf, P2sh, Sil.CovOutputs, Sil.AuthOutputs;
    FamilyOfBuilt(tx, x.covenantId, t.next.Some?);
    if t.next.Some? {
      ValidateIsValid(t.next.value);
    }
  }

  // ---------------------------------------------------------------- actions

  /** The witness of a built transaction, as the reader decodes it. */
  function SpendOf(x: Snapshot, s: Ledger, op: Operation, t: Transition, fee: int): A.SpendInfo {
    A.SpendInfo(op.action, PhaseModule(s.phase), s, x.ledger, x.origin, op.actorKey, t.data, t.foreignTail, fee)
  }

  predicate SameDraw(f: A.Effect, t: Transition) {
    if t.draw.Some? then
      && f.draw.Some? && f.draw.value.seed == t.draw.value.seed && f.draw.value.seqCommit == t.draw.value.targetSeq
      && f.draw.value.target == t.draw.value.targetHash
      && f.winner.Some? && t.payments != []
      && t.payments[0] == Payment(f.winner.value.prize, P2pk(f.winner.value.key), WINNER)
    else f.draw == None && f.winner == None
  }

  /** The reader's step reports what the transition planned. */
  predicate Understood(h: Hashes, p: Profile, x: Snapshot, s: Ledger, op: Operation, t: Transition, tx: Transaction, fee: int,
                       external: int)
    requires Decodable(s) && x.tip.index >= 0 && tx.inputs != [] && tx.outputs != []
  {
    var r := A.ReadStep(h, p, x, s, SpendOf(x, s, op, t, fee), tx, fee, external);
    && r.Ok?
    && r.value.0.next == t.next && r.value.0.terminal == t.terminal
    && r.value.1 == ExpectedRoles(t)
    && SameDraw(r.value.0, t)
  }

  /** The transaction realises the transition. */
  predicate Realises(h: Hashes, p: Profile, x: Snapshot, t: Transition, tx: Transaction) {
    && (t.next.Some? ==> ValidLedger(t.next.value) && Decodable(t.next.value))
    && tx.inputs != [] && tx.outputs != []
    && tx.outputs == StateOutput(h, p, x, t.next) + PaymentOutputs(t.payments)
    && tx.lockTime == t.lockTime && tx.inputs[0].sequence == t.sequence
    && forall i | 0 <= i < |tx.outputs| :: Payable(tx.outputs[i].value)
  }

  lemma BuyUnderstood(h: Hashes, p: Profile, x: Snapshot, s: Ledger, op: Operation, t: Transition, tx: Transaction, fee: int,
                      external: int, planned: Transition, change: seq<Payment>)
    requires Decodable(s) && x.tip.index >= 0 && Realises(h, p, x, t, tx) && |tx.inputs| >= 2
    requires op.action == BUY && BuyPlan(s, op, fee) == Ok(planned) && Change(op, planned, external) == Ok(change)
    requires t == planned.(payments := planned.payments + change)
    ensures Understood(h, p, x, s, op, t, tx, fee, external)
  {
    hide ValidLedger, Decodable, ValueOf, P2sh, ScriptOf, Le, FromLe, A.ReadSuccessor, PhaseModule, Cost, P2pk, RecordBytes,
      ValidateLedger, AppendPurchase;
    var q := op.quantity.value;
    AppendIsBought(s, q, op.actorKey);
    BuyPhases(s, q, op.actorKey);
    Pow256Values();
    FromLeOfLe(q, 4);
    var w := SpendOf(x, s, op, t, fee);
    SuccessorRead(h, p, x, t, w, tx, A.ReadBuy(s, w, tx).value);
    assert ExpectedRoles(t) == A.Auxiliary(|tx.outputs|)[0 := STATE];
  }

  lemma BuyPhases(s: Ledger, quantity: int, buyer: Bytes)
    requires CanBuy(s, quantity, buyer)
    ensures 1 <= quantity <= MAX_TICKETS && PhaseModule(Bought(s, quantity, buyer).phase) == PhaseModule(s.phase)
  {
    hide StartAt, Ascending;
  }

  lemma CloseUnderstood(h: Hashes, p: Profile, x: Snapshot, s: Ledger, op: Operation, t: Transition, tx: Transaction, fee: int,
                        external: int, planned: Transition, change: seq<Payment>)
    requires ValidLedger(s) && Decodable(s) && s.phase == OPEN && x.tip.index >= 0
    requires Realises(h, p, x, t, tx) && |tx.inputs| >= 2
    requires op.action == CLOSE && ClosePlan(p, s, fee) == Ok(planned) && Change(op, planned, external) == Ok(change)
    requires s.sold < s.config.ticketCap && s.purchaseCount < s.config.purchaseCap ==>
               x.currentDaa >= s.config.closeEligibleDaa
    requires t == planned.(payments := planned.payments + change)
    ensures Understood(h, p, x, s, op, t, tx, fee, external)
  {
    hide Decodable, ValueOf, P2sh, ScriptOf, A.ReadSuccessor, Cost, P2pk, StartAt, Ascending, A.ReadBuy, A.ReadDraw,
      A.ReadRefund, A.ReadTimeout;
    var w := SpendOf(x, s, op, t, fee);
    var f := A.ReadClose(x, s, w, tx);
    if s.sold == 0 {
      assert tx.outputs[0] == Pay(DEPOSIT, s.ownerKey);
      SuccessorRead(h, p, x, t, w, tx, f.value);
      assert ExpectedRoles(t) == A.Auxiliary(|tx.outputs|)[0 := CREATOR];
    } else {
      SuccessorRead(h, p, x, t, w, tx, f.value);
      assert ExpectedRoles(t) == A.Auxiliary(|tx.outputs|)[0 := STATE];
    }
  }

  lemma TimeoutUnderstood(h: Hashes, p: Profile, x: Snapshot, s: Ledger, op: Operation, t: Transition, tx: Transaction, fee: int,
                          external: int, planned: Transition, change: seq<Payment>)
    requires Decodable(s) && x.tip.index >= 0 && Realises(h, p, x, t, tx)
    requires op.action == TIMEOUT_REFUND && TimeoutPlan(p, x, s, fee) == Ok(planned)
    requires Change(op, planned, external) == Ok(change)
    requires t == planned.(payments := planned.payments + change)
    ensures Understood(h, p, x, s, op, t, tx, fee, external)
  {
    hide ValidLedger, Decodable, ValueOf, P2sh, ScriptOf, A.ReadSuccessor, Cost, P2pk;
    var w := SpendOf(x, s, op, t, fee);
    SuccessorRead(h, p, x, t, w, tx, A.ReadTimeout(x, s, w, tx).value);
    assert ExpectedRoles(t) == A.Auxiliary(|tx.outputs|)[0 := STATE];
  }

  /** An authenticated draw used the accessor that the reader recomputes. */
  lemma AccessorForced(h: Hashes, x: Snapshot, s: Ledger, proof: Bytes, accessor: Accessor)
    requires Decodable(s) && x.tip.index >= 0 && AuthenticateDraw(h, x, s, proof, accessor).Ok?
    ensures |proof| == Draws.OPENING_BYTES && s.phase == SEALED
    ensures accessor == Accessor(proof[..32], Draws.TargetSeq(h, proof))
    ensures x.currentDaa >= x.utxoDaa + DRAW_DELAY
    ensures AuthenticateDraw(h, x, s, proof, accessor).value.targetSeq == Draws.TargetSeq(h, proof)
    ensures AuthenticateDraw(h, x, s, proof, accessor).value.targetHash == proof[..32]
  {
    hide LedgerBytes, Draws.TargetSeq, Draws.Seed, OpeningNumber;
  }

  lemma DrawnData(opening: Bytes, record: nat)
    requires |opening| == 240 && record < MAX_PURCHASES
    ensures var data := opening + Le(record, 4);
            |data| == 244 && data[..240] == opening && data[..32] == opening[..32] && A.DataU32(data[240..]) == Ok(record)
  {
    var data := opening + Le(record, 4);
    assert data[240..] == Le(record, 4);
    Pow256Values();
    FromLeOfLe(record, 4);
  }

  /** What a planned draw pays, and to whom. */
  lemma DrawPlanned(h: Hashes, x: Snapshot, s: Ledger, op: Operation, t: Transition, fee: int)
    requires ValidLedger(s) && Decodable(s) && x.tip.index >= 0 && DrawPlan(h, x, s, op, fee, 0) == Ok(t)
    ensures op.opening.Some? && op.accessor.Some?
    ensures var w := DrawWinner(h, x, s, op.opening.value, op.accessor.value);
            && w.Ok? && w.value.record < s.purchaseCount && w.value.record < MAX_PURCHASES
            && Prize(s, fee) >= MIN_PRICE
            && t == Transition(None, Some(Sil.PAID),
                               [Payment(Prize(s, fee), P2pk(KeyAt(s.directory, w.value.record)), WINNER),
                                Payment(DEPOSIT, P2pk(s.ownerKey), CREATOR), Payment(FINALIZER, P2pk(op.actorKey), EXECUTOR)],
                               op.opening.value + Le(w.value.record, 4), 0, DRAW_DELAY, 0, [], Some(w.value.draw))
  {
    hide ValidLedger, Decodable, Cost, P2pk, DrawWinner, Records, LeChecked, Le, StartAt, EndAt, KeyAt, CountAt;
    ValidParts(s);
    ValidRecords(s);
    DrawRecord(s, DrawWinner(h, x, s, op.opening.value, op.accessor.value).value);
  }

  lemma DrawUnderstood(h: Hashes, p: Profile, x: Snapshot, s: Ledger, op: Operation, t: Transition, tx: Transaction, fee: int)
    requires ValidLedger(s) && Decodable(s) && s.phase == SEALED && x.tip.index >= 0
    requires Realises(h, p, x, t, tx) && |tx.inputs| == 1 && 0 < fee <= MAX_PAY_FEE
    requires op.action == DRAW_AND_PAY && DrawPlan(h, x, s, op, fee, 0) == Ok(t)
    ensures Understood(h, p, x, s, op, t, tx, fee, 0)
  {
    hide ValidLedger, Decodable, A.ReadSuccessor, Cost, P2pk, A.ReadDraw, DrawPlan, Le, KeyAt, DrawWinner, Realises, StateOutput,
      Prize, LedgerBytes, EndAt, A.DataU32, A.ReadBuy, A.ReadClose, A.ReadRefund, A.ReadTimeout;
    var w := SpendOf(x, s, op, t, fee);
    DrawPlanned(h, x, s, op, t, fee);
    var drawn := DrawWinner(h, x, s, op.opening.value, op.accessor.value).value;
    DrawOutputs(h, p, x, t, tx);
    WinnerAuthenticated(h, x, s, op.opening.value, op.accessor.value);
    DrawnData(op.opening.value, drawn.record);
    ValidParts(s);
    assert tx.outputs[0] == Pay(Prize(s, fee), KeyAt(s.directory, drawn.record));
    DrawRead(h, x, s, w, tx, fee, op.opening.value, drawn);
    SuccessorRead(h, p, x, t, w, tx, A.ReadDraw(h, x, s, w, tx, fee).value);
    assert ExpectedRoles(t) == [WINNER, CREATOR, EXECUTOR];
  }

  lemma DrawOutputs(h: Hashes, p: Profile, x: Snapshot, t: Transition, tx: Transaction)
    requires Realises(h, p, x, t, tx) && t.next == None
    ensures tx.outputs == StateOutput(h, p, x, t.next) + PaymentOutputs(t.payments) == PaymentOutputs(t.payments)
    ensures forall i | 0 <= i < |tx.outputs| :: Payable(tx.outputs[i].value)
    ensures tx.inputs != [] && tx.inputs[0].sequence == t.sequence
  {
  }

  lemma WinnerAuthenticated(h: Hashes, x: Snapshot, s: Ledger, proof: Bytes, accessor: Accessor)
    requires Decodable(s) && x.tip.index >= 0 && DrawWinner(h, x, s, proof, accessor).Ok?
    ensures |proof| == Draws.OPENING_BYTES
    ensures accessor == Accessor(proof[..32], Draws.TargetSeq(h, proof))
    ensures x.currentDaa >= x.utxoDaa + DRAW_DELAY
    ensures DrawWinner(h, x, s, proof, accessor).value.draw.targetSeq == Draws.TargetSeq(h, proof)
    ensures DrawWinner(h, x, s, proof, accessor).value.draw.targetHash == proof[..32]
  {
    hide AuthenticateDraw, TakeSample, RecordOfTicket;
    AccessorForced(h, x, s, proof, accessor);
  }

  lemma DrawRead(h: Hashes, x: Snapshot, s: Ledger, w: A.SpendInfo, tx: Transaction, fee: int, proof: Bytes, drawn: DrawnWinner)
    requires ValidLedger(s) && Decodable(s) && x.tip.index >= 0 && |proof| == Draws.OPENING_BYTES
    requires DrawWinner(h, x, s, proof, Accessor(proof[..32], Draws.TargetSeq(h, proof))) == Ok(drawn)
    requires drawn.record < s.purchaseCount && Prize(s, fee) >= MIN_PRICE && fee <= MAX_PAY_FEE && w.witnessFee == fee
    requires |tx.inputs| == 1 && |tx.outputs| == 3 && tx.inputs[0].sequence == DRAW_DELAY
    requires x.currentDaa >= x.utxoDaa + DRAW_DELAY
    requires w.nextTail == [] && |w.data| == 244 && w.data[..240] == proof && w.data[..32] == proof[..32]
    requires A.DataU32(w.data[240..]) == Ok(drawn.record)
    requires A.PaysAs(tx, 0, Prize(s, fee), KeyAt(s.directory, drawn.record))
    requires A.PaysAs(tx, 1, DEPOSIT, s.ownerKey) && A.PaysAs(tx, 2, FINALIZER, w.actorKey)
    ensures var r := A.ReadDraw(h, x, s, w, tx, fee);
            && r.Ok?
            && r.value.next == None && r.value.terminal == Some(Sil.PAID) && r.value.roles == [WINNER, CREATOR, EXECUTOR]
            && r.value.draw.Some? && r.value.draw.value.seed == drawn.draw.seed
            && r.value.draw.value.seqCommit == Draws.TargetSeq(h, proof) && r.value.draw.value.target == proof[..32]
            && r.value.winner.Some? && r.value.winner.value.prize == Prize(s, fee)
            && r.value.winner.value.key == KeyAt(s.directory, drawn.record)
  {
    hide ValidLedger, Decodable, Cost, A.PaysAs, DrawWinner, Records, A.DataU32, StartAt, EndAt, KeyAt, CountAt,
      Draws.TargetSeq;
    ValidParts(s);
    ValidRecords(s);
  }

  lemma DrawRecord(s: Ledger, drawn: DrawnWinner)
    requires ValidLedger(s) && drawn.record < s.purchaseCount
    ensures drawn.record < MAX_PURCHASES
    ensures LeChecked(drawn.record, 4) == Ok(Le(drawn.record, 4))
  {
    Pow256Values();
  }

  lemma {:induction false} RefundPaymentsAt(rs: seq<Record>, price: int, from: nat, n: nat, i: nat)
    requires from + n <= |rs| && i < n && RefundPayments(rs, price, from, n).Ok?
    ensures |RefundPayments(rs, price, from, n).value| == n
    ensures RefundPayments(rs, price, from, n).value[i]
         == Payment(Cost(rs[from + i].count, price) - REFUND_FEE, P2pk(rs[from + i].key), BUYER_REFUND)
  {
    RefundPaymentsLength(rs, price, from, n - 1);
    if i < n - 1 {
      RefundPaymentsAt(rs, price, from, n - 1, i);
    }
  }

  lemma {:induction false} RefundPaymentsLength(rs: seq<Record>, price: int, from: nat, n: nat)
    requires from + n <= |rs| && RefundPayments(rs, price, from, n).Ok?
    ensures |RefundPayments(rs, price, from, n).value| == n
  {
    if n > 0 {
      RefundPaymentsLength(rs, price, from, n - 1);
    }
  }

  function RefundTransition(s: Ledger, op: Operation, fee: int, external: int, refunds: seq<Payment>, required: int): Transition {
    Transition(if IsLast(s) then None else Some(s.(cursor := s.cursor + BatchSize(s))),
               if IsLast(s) then Some(Sil.REFUNDED) else None,
               refunds + (if IsLast(s) then [Payment(DEPOSIT - REFUND_FEE, P2pk(s.ownerKey), CREATOR)] else [])
               + [Payment(external + Pool(s) - fee, P2pk(op.actorKey), EXECUTOR)],
               [], 0, 0, required, [], None)
  }

  lemma RefundPlanned(s: Ledger, op: Operation, t: Transition, fee: int, external: int) returns (refunds: seq<Payment>)
    requires ValidLedger(s) && s.phase == REFUNDING && RefundPlan(s, op, fee, external) == Ok(t)
    ensures 0 < BatchSize(s) && 0 <= s.cursor && s.cursor + BatchSize(s) <= s.purchaseCount && HasRecords(s.directory, s.purchaseCount)
    ensures RefundPayments(RecordList(s.directory, s.purchaseCount), s.config.ticketPrice, s.cursor, BatchSize(s)) == Ok(refunds)
    ensures t == RefundTransition(s, op, fee, external, refunds, t.requiredExternal)
  {
    hide ValidLedger, Cost, P2pk, Records, RefundPayments, RefundBatch, BatchSize, IsLast, Pool, RecordAt;
    ValidParts(s);
    ValidRecords(s);
    BatchGrossBound(s);
    BatchAgrees(s);
    refunds := RefundPayments(RecordList(s.directory, s.purchaseCount), s.config.ticketPrice, s.cursor, BatchSize(s)).value;
  }

  lemma RefundOutputs(s: Ledger, op: Operation, t: Transition, w: A.SpendInfo, tx: Transaction, state: seq<Output>, fee: int,
                      external: int, refunds: seq<Payment>)
    requires ValidLedger(s) && s.phase == REFUNDING
    requires 0 < BatchSize(s) && 0 <= s.cursor && s.cursor + BatchSize(s) <= s.purchaseCount && HasRecords(s.directory, s.purchaseCount)
    requires RefundPayments(RecordList(s.directory, s.purchaseCount), s.config.ticketPrice, s.cursor, BatchSize(s)) == Ok(refunds)
    requires t == RefundTransition(s, op, fee, external, refunds, t.requiredExternal)
    requires |state| == (if IsLast(s) then 0 else 1) && tx.outputs == state + PaymentOutputs(t.payments)
    requires forall i | 0 <= i < |tx.outputs| :: Payable(tx.outputs[i].value)
    requires w.data == [] && w.nextTail == [] && w.actorKey == op.actorKey
    ensures ReaderRefunds(s, w, tx, fee, external)
    ensures |refunds| == BatchSize(s) && forall i | 0 <= i < |refunds| :: refunds[i].role == BUYER_REFUND
  {
    hide ValidLedger, Cost, P2pk, RefundPayments, BatchSize, IsLast, Pool, RecordAt, A.PaysAs, PaymentOutputs;
    var rs, k, first := RecordList(s.directory, s.purchaseCount), BatchSize(s), if IsLast(s) then 0 else 1;
    RefundPaymentsLength(rs, s.config.ticketPrice, s.cursor, k);
    forall i | 0 <= i < k
      ensures refunds[i] == Payment(Cost(rs[s.cursor + i].count, s.config.ticketPrice) - REFUND_FEE, P2pk(rs[s.cursor + i].key),
                                    BUYER_REFUND)
    {
      RefundPaymentsAt(rs, s.config.ticketPrice, s.cursor, k, i);
    }
    forall i {:trigger rs[i]} | s.cursor <= i < s.cursor + k
      ensures A.PaysAs(tx, first + i - s.cursor, Cost(rs[i].count, s.config.ticketPrice) - REFUND_FEE, rs[i].key)
    {
      var j := i - s.cursor;
      assert t.payments[j] == refunds[j];
      PaysPayment(tx, state, t.payments, j, rs[i].key);
    }
    var n := |t.payments|;
    assert t.payments[n - 1] == Payment(external + Pool(s) - fee, P2pk(op.actorKey), EXECUTOR);
    PaysPayment(tx, state, t.payments, n - 1, op.actorKey);
    if IsLast(s) {
      assert t.payments[k] == Payment(DEPOSIT - REFUND_FEE, P2pk(s.ownerKey), CREATOR);
      PaysPayment(tx, state, t.payments, k, s.ownerKey);
    }
  }

  /** The output that a payment became pays as the reader asks. */
  lemma PaysPayment(tx: Transaction, state: seq<Output>, payments: seq<Payment>, j: nat, key: Bytes)
    requires tx.outputs == state + PaymentOutputs(payments) && j < |payments| && payments[j].spk == P2pk(key)
    requires forall i | 0 <= i < |tx.outputs| :: Payable(tx.outputs[i].value)
    ensures A.PaysAs(tx, |state| + j, payments[j].value, key)
  {
    hide P2pk;
    assert tx.outputs[|state| + j] == PaymentOutputs(payments)[j];
  }

  lemma RefundExpected(s: Ledger, op: Operation, t: Transition, fee: int, external: int, refunds: seq<Payment>)
    requires 0 < BatchSize(s) == |refunds| && forall i | 0 <= i < |refunds| :: refunds[i].role == BUYER_REFUND
    requires t == RefundTransition(s, op, fee, external, refunds, t.requiredExternal)
    ensures ExpectedRoles(t) == if IsLast(s) then A.RefundRoles(BatchSize(s), true)
                                else A.RefundRoles(BatchSize(s), false)[0 := STATE]
  {
    hide BatchSize, IsLast, Pool, P2pk;
  }

  lemma RefundUnderstood(h: Hashes, p: Profile, x: Snapshot, s: Ledger, op: Operation, t: Transition, tx: Transaction, fee: int,
                         external: int)
    requires ValidLedger(s) && Decodable(s) && s.phase == REFUNDING && x.tip.index >= 0
    requires Realises(h, p, x, t, tx)
    requires op.action == REFUND && RefundPlan(s, op, fee, external) == Ok(t)
    ensures Understood(h, p, x, s, op, t, tx, fee, external)
  {
    hide ValidLedger, Decodable, A.ReadSuccessor, Cost, P2pk, A.ReadRefund, RefundPlan, BatchSize, IsLast, Pool, ReaderRefunds,
      ValueOf, ScriptOf, ExpectedRoles, A.ReadBuy, A.ReadClose, A.ReadDraw, A.ReadTimeout, P2sh, LedgerBytes,
      HasRecords, RecordList;
    var refunds := RefundPlanned(s, op, t, fee, external);
    var w := SpendOf(x, s, op, t, fee);
    RefundOutputs(s, op, t, w, tx, StateOutput(h, p, x, t.next), fee, external, refunds);
    ReadRefundIs(s, w, tx, fee, external);
    SuccessorRead(h, p, x, t, w, tx, A.ReadRefund(s, w, tx, fee, external).value);
    RefundExpected(s, op, t, fee, external, refunds);
  }

  // ---------------------------------------------------------------- the theorem

  /** What a successful transition consists of. */
  lemma TransitionParts(h: Hashes, p: Profile, x: Snapshot, s: Ledger, op: Operation, fee: int, external: int)
    returns (planned: Transition, change: seq<Payment>)
    requires VerifySnapshot(h, p, x) == Ok(s) && Decodable(s) && x.tip.index >= 0
    requires s.phase in {OPEN, SEALED, REFUNDING} && TransitionOf(h, p, x, op, fee, external).Ok?
    ensures Plan(h, p, x, s, op, fee, external) == Ok(planned) && Change(op, planned, external) == Ok(change)
    ensures var t := TransitionOf(h, p, x, op, fee, external).value;
            && t == planned.(payments := planned.payments + change)
            && StateOutputs(t) + |t.payments| <= OutputLimit(PhaseModule(s.phase))
    ensures 0 < fee <= MAX_PAY_FEE
    ensures A.Allowed(PhaseModule(s.phase), op.action)
    ensures op.action == CLOSE && s.sold < s.config.ticketCap && s.purchaseCount < s.config.purchaseCap ==>
              x.currentDaa >= s.config.closeEligibleDaa
  {
    hide VerifySnapshot, Plan, Change, ValidateLedger, Decodable, ValidConfig;
    var t := TransitionOf(h, p, x, op, fee, external).value;
    planned := Plan(h, p, x, s, op, fee, external).value;
    change := Change(op, planned, external).value;
  }

  lemma PlanUnderstood(h: Hashes, p: Profile, x: Snapshot, s: Ledger, op: Operation, t: Transition, tx: Transaction, fee: int,
                       funds: seq<Funding>)
    requires VerifySnapshot(h, p, x) == Ok(s) && ValidLedger(s) && Decodable(s) && x.tip.index >= 0
    requires TransitionOf(h, p, x, op, fee, TotalFunding(funds)) == Ok(t) && FundingInputs(funds, op.actorKey).Ok?
    requires Realises(h, p, x, t, tx) && |tx.inputs| == 1 + |funds|
    ensures Understood(h, p, x, s, op, t, tx, fee, TotalFunding(funds))
  {
    hide VerifySnapshot, ValidLedger, Decodable, Realises, Understood, TransitionOf, BuyPlan, ClosePlan, DrawPlan, TimeoutPlan,
      RefundPlan, FundsChecked, TotalFunding;
    var external := TotalFunding(funds);
    ValidParts(s);
    Lineage.PhaseOfValid(s);
    FundsPositive(funds, op.actorKey);
    var planned, change := TransitionParts(h, p, x, s, op, fee, external);
    assert planned.payments + [] == planned.payments;
    match op.action
    case BUY =>
      NeedsFunds(p, s, op, fee, planned);
      BuyUnderstood(h, p, x, s, op, t, tx, fee, external, planned, change);
    case CLOSE =>
      NeedsFunds(p, s, op, fee, planned);
      CloseUnderstood(h, p, x, s, op, t, tx, fee, external, planned, change);
    case TIMEOUT_REFUND =>
      TimeoutUnderstood(h, p, x, s, op, t, tx, fee, external, planned, change);
    case DRAW_AND_PAY =>
      DrawIsFree(h, x, s, op, fee, external);
      DrawUnderstood(h, p, x, s, op, t, tx, fee);
    case REFUND =>
      RefundUnderstood(h, p, x, s, op, t, tx, fee, external);
  }

  lemma NeedsFunds(p: Profile, s: Ledger, op: Operation, fee: int, planned: Transition)
    requires fee > 0 && ValidLedger(s)
    requires BuyPlan(s, op, fee) == Ok(planned) || ClosePlan(p, s, fee) == Ok(planned)
    ensures planned.requiredExternal > 0
  {
    hide StartAt, EndAt, LeChecked;
    if BuyPlan(s, op, fee) == Ok(planned) {
      AppendIsBought(s, op.quantity.value, op.actorKey);
      CostAtLeastPrice(op.quantity.value, s.config.ticketPrice);
    }
  }

  lemma DrawIsFree(h: Hashes, x: Snapshot, s: Ledger, op: Operation, fee: int, external: int)
    requires Decodable(s) && x.tip.index >= 0 && DrawPlan(h, x, s, op, fee, external).Ok?
    ensures external == 0
  {
    hide DrawWinner, Records;
  }

  /** `tx` is `unsigned` with signature scripts filled in on the inputs after the first. */
  predicate SignedFrom(unsigned: Transaction, tx: Transaction) {
    && |tx.inputs| == |unsigned.inputs| > 0
    && tx.inputs[0] == unsigned.inputs[0]
    && tx == unsigned.(inputs := tx.inputs)
    && forall i {:trigger tx.inputs[i]} | 0 <= i < |tx.inputs| ::
         tx.inputs[i] == unsigned.inputs[i].(signatureScript := tx.inputs[i].signatureScript)
  }

  lemma SigningKeeps(unsigned: Transaction, tx: Transaction)
    requires SignedFrom(unsigned, tx) && ValidTransaction(unsigned) && DistinctInputs(unsigned)
    ensures ValidTransaction(tx) && DistinctInputs(tx)
  {
    forall i | 0 <= i < |tx.inputs|
      ensures ValidInput(tx.inputs[i]) && tx.inputs[i].previousOutpoint == unsigned.inputs[i].previousOutpoint
    {
      assert ValidInput(unsigned.inputs[i]);
    }
  }

  /** The reader's account `i` of a spend is what draft `d` set out to do. */
  predicate AsDrafted(d: Draft, op: Operation, i: A.Interpretation, total: int) {
    && i.action == op.action && i.actorKey == op.actorKey
    && i.next == d.transition.next && i.terminal == d.transition.terminal
    && i.fee == i.witnessFee == d.fee && i.external == total
    && i.roles == ExpectedRoles(d.transition)
    && (d.transition.draw.Some? ==>
          && i.draw.Some? && i.draw.value.seed == d.transition.draw.value.seed
          && i.winner.Some? && d.transition.payments != []
          && d.transition.payments[0] == Payment(i.winner.value.prize, P2pk(i.winner.value.key), WINNER))
    && (i.draw.Some? ==> op.accessor == Some(Accessor(i.draw.value.target, i.draw.value.seqCommit)))
  }

  /** Every transaction that the builder makes, once signed, is one that the reader understands: on the values of its
      inputs, the reader succeeds with the planned successor or terminal, fee, external value, draw, winner and roles. */
  lemma BuilderAndReaderAgree(h: Hashes, p: Profile, x: Snapshot, op: Operation, fee: int, funds: seq<Funding>, budget: int,
                              payload: Bytes, tx: Transaction)
    requires BuildAction(h, p, x, op, fee, funds, budget, payload).Ok?
    requires SignedFrom(BuildAction(h, p, x, op, fee, funds, budget, payload).value.transaction, tx)
    ensures var d := BuildAction(h, p, x, op, fee, funds, budget, payload).value;
            var i := A.InterpretAccepted(h, p, x, tx, Some(InputValues(x, funds)));
            && d.fee == fee
            && i.Ok?
            && VerifySnapshot(h, p, x) == Ok(i.value.spent)
            && AsDrafted(d, op, i.value, TotalFunding(funds))
  {
    hide VerifySnapshot, BuildAction, TransitionOf, FundingInputs, Witness, ValidTransaction, DistinctInputs, ValidLedger,
      Decodable, A.CheckedSpend, A.CheckedFunding, A.ReadStep, TotalFunding, ExpectedRoles, TotalOut, ValueOf, LedgerBytes,
      RootPreimage, P2sh, ScriptOf, InputValues;
    var s, signature := BuiltParts(h, p, x, op, fee, funds, budget, payload);
    var d := BuildAction(h, p, x, op, fee, funds, budget, payload).value;
    var t := d.transition;
    SigningKeeps(d.transaction, tx);
    VerifyIsVerified(h, p, x, s);
    ValidParts(s);
    var planned, change := TransitionParts(h, p, x, s, op, fee, TotalFunding(funds));
    FundsCount(funds, op.actorKey);
    HasOutputs(h, p, x, s, op, t, fee, TotalFunding(funds), planned, change);
    PlanUnderstood(h, p, x, s, op, t, tx, fee, funds);
    SpendRead(h, p, x, s, op, t, fee, tx);
    FundingRead(x, tx, funds, op.actorKey, SpendOf(x, s, op, t, fee), fee);
    DrawAccessor(h, p, x, s, op, planned, fee, TotalFunding(funds));
  }

  /** A planned draw carries the target and commitment of the accessor it was given. */
  lemma DrawAccessor(h: Hashes, p: Profile, x: Snapshot, s: Ledger, op: Operation, t: Transition, fee: int, external: int)
    requires Decodable(s) && x.tip.index >= 0 && Plan(h, p, x, s, op, fee, external) == Ok(t)
    ensures t.draw.Some? ==> op.accessor == Some(Accessor(t.draw.value.targetHash, t.draw.value.targetSeq))
  {
    hide DrawWinner, Records, AppendPurchase, RefundPayments, RefundBatch, Cost, TimeoutDaa;
    if op.action == DRAW_AND_PAY {
      WinnerAuthenticated(h, x, s, op.opening.value, op.accessor.value);
    }
  }

  lemma FundsCount(funds: seq<Funding>, key: Bytes)
    requires FundingInputs(funds, key).Ok?
    ensures |funds| <= 8
  {
    hide FundsChecked;
  }

  /** A transition always creates an output. */
  lemma HasOutputs(h: Hashes, p: Profile, x: Snapshot, s: Ledger, op: Operation, t: Transition, fee: int, external: int,
                   planned: Transition, change: seq<Payment>)
    requires Decodable(s) && x.tip.index >= 0
    requires Plan(h, p, x, s, op, fee, external) == Ok(planned) && t == planned.(payments := planned.payments + change)
    ensures t.next.Some? || t.payments != []
  {
    hide DrawWinner, Records, AppendPurchase, RefundPayments, RefundBatch, Cost, TimeoutDaa;
  }
}
