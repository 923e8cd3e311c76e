/** What the builder returns, field by field: the whole transaction, the funding it accepts and what the wallet is out of pocket
    (scripts/core/src/builders.ts:22-53). */
module Drafts {
  import opened Results
  import opened Bytes
  import opened Layout
  import opened State
  import opened Directory
  import opened Scripts
  import opened Tx
  import opened Frames
  import opened Draws
  import opened Protocol
  import opened Builders
  import opened BuilderExact
  import opened Transitions
  import Genesis

  // ---------------------------------------------------------------- funding

  /** A funding output that pays to the key, carries no covenant and has a value within range. */
  predicate Usable(f: Funding, key: Bytes) {
    && 0 < f.value < 9_000_000_000_000_000
    && (f.covenantId.Some? ==> f.covenantId.value == Zeros(32))
    && f.spk == Spk(0, [0x20] + key + [0xac])
    && |f.outpoint.transactionId| == 32 && 0 <= f.outpoint.index < 0x1_0000_0000
  }

  predicate AllUsable(funds: seq<Funding>, key: Bytes) {
    && |funds| <= 8
    && (forall i | 0 <= i < |funds| :: Usable(funds[i], key))
    && (forall i, j | 0 <= i < j < |funds| :: funds[i].outpoint != funds[j].outpoint)
  }

  lemma FundExactly(f: Funding, key: Bytes, taken: bool)
    requires |key| == 32
    ensures FundChecked(f, key, taken).Ok? <==> Usable(f, key) && !taken
  {
  }

  lemma {:induction false} FundsExactly(funds: seq<Funding>, key: Bytes)
    requires |key| == 32
    ensures FundsChecked(funds, key).Ok? <==>
              && (forall i | 0 <= i < |funds| :: Usable(funds[i], key))
              && (forall i, j | 0 <= i < j < |funds| :: funds[i].outpoint != funds[j].outpoint)
  {
    hide FundChecked, Usable;
    if funds != [] {
      var n := |funds| - 1;
      FundsExactly(funds[..n], key);
      FundExactly(funds[n], key, Seen(funds[..n], funds[n].outpoint));
      forall i | 0 <= i < n
        ensures funds[..n][i] == funds[i]
      {
      }
    }
  }

  lemma FundingExactly(funds: seq<Funding>, key: Bytes)
    requires |key| == 32
    ensures FundingInputs(funds, key).Ok? <==> AllUsable(funds, key)
  {
    hide FundsChecked, Usable;
    FundsExactly(funds, key);
  }

  /** The builder succeeds exactly when the transition does with what the funding holds, at most eight distinct outputs of the
      actor fund it, none of them the tip, and budget and payload are within range. */
  lemma BuildsExactly(h: Hashes, p: Profile, x: Snapshot, op: Operation, fee: int, funds: seq<Funding>, budget: int, payload: Bytes)
    ensures BuildAction(h, p, x, op, fee, funds, budget, payload).Ok?
       <==> && TransitionOf(h, p, x, op, fee, TotalFunding(funds)).Ok?
            && AllUsable(funds, op.actorKey) && (forall i | 0 <= i < |funds| :: funds[i].outpoint != x.tip)
            && 0 <= budget < 0x1_0000 && |payload| <= 16_777_216
  {
    hide TransitionOf, BuildAction, FundingInputs, AllUsable, TotalFunding, Verified, VerifySnapshot, ValidLedger;
    BuildExactly(h, p, x, op, fee, funds, budget, payload);
    if TransitionOf(h, p, x, op, fee, TotalFunding(funds)).Ok? {
      var _ := TransitionSnapshot(h, p, x, op, fee, TotalFunding(funds));
      FundingExactly(funds, op.actorKey);
    }
  }

  // ---------------------------------------------------------------- the transaction

  /** The state output of a successor: its value and redeem script, bound to the round's covenant by input 0. */
  predicate CarriesNext(h: Hashes, p: Profile, x: Snapshot, o: Output, next: Ledger)
    requires ValidLedger(next) && Decodable(next)
  {
    hide ValidLedger, Decodable, ScriptOf, ValueOf;
    o == Output(ValueOf(next), Spk(0, [0xaa, 0x20] + h.blake2b(ScriptOf(next, p)) + [0x87]), Some(Binding(x.covenantId, 0)))
  }

  /** The outputs of a transition: the state output of a successor first, then the payments in order. */
  predicate Pays(h: Hashes, p: Profile, x: Snapshot, t: Transition, outputs: seq<Output>)
    requires t.next.Some? ==> ValidLedger(t.next.value) && Decodable(t.next.value)
  {
    hide ValidLedger, Decodable, CarriesNext;
    var first := if t.next.Some? then 1 else 0;
    && |outputs| == first + |t.payments|
    && (t.next.Some? ==> CarriesNext(h, p, x, outputs[0], t.next.value))
    && forall i | 0 <= i < |t.payments| :: outputs[first + i] == Output(t.payments[i].value, t.payments[i].spk, None)
  }

  /** A built draft, field by field, apart from the witness and the wallet debit. */
  lemma DraftExactly(h: Hashes, p: Profile, x: Snapshot, op: Operation, fee: int, funds: seq<Funding>, budget: int, payload: Bytes)
    requires BuildAction(h, p, x, op, fee, funds, budget, payload).Ok?
    ensures TransitionOf(h, p, x, op, fee, TotalFunding(funds)).Ok?
    ensures var d := BuildAction(h, p, x, op, fee, funds, budget, payload).value;
            var t, tx := d.transition, d.transaction;
            && t == TransitionOf(h, p, x, op, fee, TotalFunding(funds)).value
            && (t.next.Some? ==> ValidLedger(t.next.value) && Decodable(t.next.value))
            && tx.version == 1 && tx.lockTime == t.lockTime && tx.subnetworkId == Zeros(20) && tx.gas == 0
            && tx.payload == payload && tx.storageMass == 0
            && |tx.inputs| == 1 + |funds|
            && tx.inputs[0] == Input(x.tip, tx.inputs[0].signatureScript, t.sequence, Some(budget), None)
            && (forall i | 0 <= i < |funds| :: tx.inputs[1 + i] == Input(funds[i].outpoint, [], 0, Some(10), None))
            && Pays(h, p, x, t, tx.outputs)
            && d.inputUtxos == [Funding(x.tip, x.value, x.scriptPublicKey, x.utxoDaa, Some(x.covenantId))] + funds
            && |d.authorizedInputIndices| == |funds| && (forall i | 0 <= i < |funds| :: d.authorizedInputIndices[i] == i + 1)
            && d.origin == x.origin && d.action == op.action && d.fee == fee
  {
    hide TransitionOf, VerifySnapshot, Witness, FundingInputs, Seen, TotalFunding, Returned, AssertDraft, ValidLedger, Decodable,
      ScriptOf, ValueOf, Verified;
    PlannedNext(h, p, x, op, fee, TotalFunding(funds));
  }

  // ---------------------------------------------------------------- the wallet debit

  lemma ReturnedNext(op: Operation, ps: seq<Payment>, v: Payment)
    ensures Returned(op, ps + [v])
         == Returned(op, ps) + if v.role == CHANGE || (op.action == REFUND && v.role == EXECUTOR) then v.value else 0
  {
    assert (ps + [v])[..|ps|] == ps;
  }

  /** A payment that the wallet does not get back. */
  predicate ToOthers(op: Operation, v: Payment) {
    v.role in {WINNER, CREATOR, BUYER_REFUND} || (v.role == EXECUTOR && op.action != REFUND)
  }

  lemma {:induction false} NothingReturned(op: Operation, ps: seq<Payment>)
    requires forall i | 0 <= i < |ps| :: ToOthers(op, ps[i])
    ensures Returned(op, ps) == 0
  {
    if ps != [] {
      NothingReturned(op, ps[..|ps| - 1]);
    }
  }

  lemma ChangeReturned(op: Operation, ps: seq<Payment>, key: Bytes, rest: int)
    requires 0 <= rest && forall i | 0 <= i < |ps| :: ToOthers(op, ps[i])
    ensures Returned(op, ps + ChangeTo(key, rest)) == rest
  {
    hide P2pk, Returned;
    NothingReturned(op, ps);
    if rest > 0 {
      ReturnedNext(op, ps, ChangeTo(key, rest)[0]);
    } else {
      assert ps + ChangeTo(key, rest) == ps;
    }
  }

  /** What a wallet is out of pocket, beyond change: the price and the fee of a purchase, the fee of a close or a timeout,
      nothing for a draw, and for a refund only what the fee exceeds the pool by. */
  function Spent(s: Ledger, op: Operation, fee: int): int {
    match op.action
    case BUY => (if op.quantity.Some? then op.quantity.value else 0) * s.config.ticketPrice + fee
    case CLOSE => fee
    case DRAW_AND_PAY => 0
    case TIMEOUT_REFUND => fee
    case REFUND =>
      var pool := (if s.purchaseCount - s.cursor <= 32 then s.purchaseCount - s.cursor + 1 else 32) * 2_000_000;
      if fee > pool then fee - pool else 0
  }

  predicate DebitIs(s: Ledger, op: Operation, fee: int, external: int, returned: int) {
    (if external > returned then external - returned else 0) == Spent(s, op, fee)
  }

  lemma BuyReturned(s: Ledger, op: Operation, fee: int, external: int)
    requires ValidLedger(s) && op.action == BUY && op.quantity.Some? && 0 <= s.sold && fee > 0
    requires BuyGuard(s, op.quantity.value, fee, external)
    ensures DebitIs(s, op, fee, external, Returned(op, BuyTransition(s, op.quantity.value, op.actorKey, fee, external).payments))
  {
    hide ValidLedger, Returned, P2pk, Le;
    var rest := external - op.quantity.value * s.config.ticketPrice - fee;
    PriceNotNegative(s, op.quantity.value);
    assert [] + ChangeTo(op.actorKey, rest) == ChangeTo(op.actorKey, rest);
    ChangeReturned(op, [], op.actorKey, rest);
  }

  lemma CloseReturned(p: Profile, s: Ledger, op: Operation, fee: int, external: int)
    requires op.action == CLOSE && 0 < fee <= external
    ensures DebitIs(s, op, fee, external, Returned(op, CloseTransition(p, s, op.actorKey, fee, external).payments))
  {
    hide Returned, P2pk, ChangeTo, Full;
    var change := ChangeTo(op.actorKey, external - fee);
    if s.sold == 0 {
      ChangeReturned(op, [Payment(400_000_000, P2pk(s.ownerKey), CREATOR)], op.actorKey, external - fee);
    } else {
      assert [] + change == change;
      ChangeReturned(op, [], op.actorKey, external - fee);
    }
  }

  lemma TimeoutReturned(s: Ledger, op: Operation, fee: int, external: int)
    requires op.action == TIMEOUT_REFUND && 0 < fee <= external
    ensures DebitIs(s, op, fee, external, Returned(op, ChangeTo(op.actorKey, external - fee)))
  {
    hide Returned, ChangeTo;
    assert [] + ChangeTo(op.actorKey, external - fee) == ChangeTo(op.actorKey, external - fee);
    ChangeReturned(op, [], op.actorKey, external - fee);
  }

  lemma RefundReturned(s: Ledger, op: Operation, fee: int, external: int)
    requires ValidLedger(s) && s.phase == REFUNDING && op.action == REFUND && fee > 0
    ensures DebitIs(s, op, fee, external, Returned(op, RefundTransition(s, op.actorKey, fee, external).payments))
  {
    hide ValidLedger, Returned, P2pk, StartAt, EndAt, KeyAt;
    BatchIs(s);
    var others := RefundList(s, Next(s)) + if Ends(s) then [Payment(398_000_000, P2pk(s.ownerKey), CREATOR)] else [];
    NothingReturned(op, others);
    ReturnedNext(op, others, Payment(Executor(s, fee, external), P2pk(op.actorKey), EXECUTOR));
  }

  /** What comes back of the external value decides the debit. */
  lemma ReturnedIs(h: Hashes, p: Profile, x: Snapshot, s: Ledger, op: Operation, fee: int, external: int)
    requires Verified(h, p, x, s) && TransitionOf(h, p, x, op, fee, external).Ok?
    ensures DebitIs(s, op, fee, external, Returned(op, TransitionOf(h, p, x, op, fee, external).value.payments))
  {
    hide Verified, TransitionOf, ValidLedger, Decodable, Returned, DebitIs, BuyTransition, CloseTransition, RefundTransition,
      DrawTransition, BuyGuard, Executor, ChangeTo;
    VerifiedFacts(h, p, x, s);
    OfferedPlans(h, p, x, s, op, fee, external);
    match op.action {
      case BUY =>
        BuyExactly(h, p, x, s, op, fee, external);
        BuyReturned(s, op, fee, external);
      case CLOSE =>
        CloseExactly(h, p, x, s, op, fee, external);
        CloseReturned(p, s, op, fee, external);
      case DRAW_AND_PAY => DrawReturned(h, p, x, s, op, fee, external);
      case TIMEOUT_REFUND =>
        TimeoutExactly(h, p, x, s, op, fee, external);
        TimeoutReturned(s, op, fee, external);
      case REFUND =>
        RefundExactly(h, p, x, s, op, fee, external);
        RefundReturned(s, op, fee, external);
    }
  }

  lemma DrawReturned(h: Hashes, p: Profile, x: Snapshot, s: Ledger, op: Operation, fee: int, external: int)
    requires Verified(h, p, x, s) && s.phase == SEALED && op.action == DRAW_AND_PAY
    requires TransitionOf(h, p, x, op, fee, external).Ok?
    ensures DebitIs(s, op, fee, external, Returned(op, TransitionOf(h, p, x, op, fee, external).value.payments))
  {
    hide Verified, TransitionOf, ValidLedger, Decodable, Returned, SeedOn, SampleValue, OpeningHolds, P2pk, StartAt, EndAt, KeyAt;
    VerifiedFacts(h, p, x, s);
    var _ := DrawExactly(h, p, x, s, op, fee, external);
    NothingReturned(op, TransitionOf(h, p, x, op, fee, external).value.payments);
  }

  /** The wallet debit of a built draft. */
  lemma WalletDebitIs(h: Hashes, p: Profile, x: Snapshot, s: Ledger, op: Operation, fee: int, funds: seq<Funding>, budget: int,
                      payload: Bytes)
    requires Verified(h, p, x, s) && BuildAction(h, p, x, op, fee, funds, budget, payload).Ok?
    ensures BuildAction(h, p, x, op, fee, funds, budget, payload).value.walletDebit == Spent(s, op, fee)
  {
    hide TransitionOf, VerifySnapshot, Witness, FundingInputs, Seen, TotalFunding, Returned, AssertDraft, ValidLedger, Decodable,
      Assembled, Verified, Spent;
    PlannedNext(h, p, x, op, fee, TotalFunding(funds));
    ReturnedIs(h, p, x, s, op, fee, TotalFunding(funds));
  }

  // ---------------------------------------------------------------- genesis

  /** What opening a round costs: the deposit, the registration if there is a registry, and the fee. */
  function OpeningCost(registry: Option<Spk>, fee: int): int {
    400_000_000 + (if registry.Some? then 20_000_000 else 0) + fee
  }

  predicate GenesisGuard(owner: Bytes, config: Config, funds: seq<Funding>, fee: int, registry: Option<Spk>) {
    && |owner| == 32 && ValidConfig(config) && funds != [] && AllUsable(funds, owner) && 0 < fee <= 50_000_000
    && OpeningCost(registry, fee) <= TotalFunding(funds) <= OpeningCost(registry, fee) + 9_000_000_000_000_000
    && (registry.Some? ==> 0 <= registry.value.version < 0x1_0000 && 0 < |registry.value.script| <= 1_000_000)
  }

  /** The outputs of a created round: its state output, the registration, and what is left of the funding to the owner. */
  function OpeningOutputs(h: Hashes, script: Bytes, id: Digest, owner: Bytes, registry: Option<Spk>, rest: int): seq<Output> {
    [Output(400_000_000, Spk(0, [0xaa, 0x20] + h.blake2b(script) + [0x87]), Some(Binding(id, 0)))]
    + (if registry.Some? then [Output(20_000_000, registry.value, None)] else [])
    + (if rest > 0 then [Output(rest, Spk(0, [0x20] + owner + [0xac]), None)] else [])
  }

  lemma NewOpenValid(owner: Bytes, config: Config)
    ensures ValidLedger(NewOpen(owner, config)) <==> |owner| == 32 && ValidConfig(config)
  {
  }

  lemma OpeningTotal(h: Hashes, script: Bytes, id: Digest, owner: Bytes, registry: Option<Spk>, rest: int)
    requires 0 <= rest
    ensures TotalOut(OpeningOutputs(h, script, id, owner, registry, rest)) == OpeningCost(registry, 0) + rest
  {
    var state := Output(400_000_000, Spk(0, [0xaa, 0x20] + h.blake2b(script) + [0x87]), Some(Binding(id, 0)));
    var registered := if registry.Some? then [Output(20_000_000, registry.value, None)] else [];
    var change := if rest > 0 then [Output(rest, Spk(0, [0x20] + owner + [0xac]), None)] else [];
    assert TotalOut([state]) == 400_000_000 by { assert [state][..0] == []; }
    OneMore([state], registered);
    OneMore([state] + registered, change);
  }

  lemma OneMore(os: seq<Output>, more: seq<Output>)
    requires |more| <= 1
    ensures TotalOut(os + more) == TotalOut(os) + if more == [] then 0 else more[0].value
  {
    if more == [] {
      assert os + more == os;
    } else {
      assert (os + more)[..|os|] == os;
    }
  }

  lemma OpeningInputs(funds: seq<Funding>, owner: Bytes)
    requires AllUsable(funds, owner)
    ensures forall i | 0 <= i < |funds| :: ValidInput(FundingTxInputs(funds)[i])
    ensures forall i, j | 0 <= i < j < |funds| ::
              FundingTxInputs(funds)[i].previousOutpoint != FundingTxInputs(funds)[j].previousOutpoint
  {
  }

  lemma OpeningFits(h: Hashes, script: Bytes, id: Digest, owner: Bytes, registry: Option<Spk>, rest: int, inputCount: nat)
    requires 0 <= rest <= 9_000_000_000_000_000 && inputCount > 0
    requires registry.Some? ==> 0 <= registry.value.version < 0x1_0000
    ensures var os := OpeningOutputs(h, script, id, owner, registry, rest);
            |os| <= 3 && forall i | 0 <= i < |os| :: ValidOutput(os[i], 1, inputCount) && Payable(os[i].value)
  {
  }

  /** The transaction of a created round. */
  function OpeningTx(h: Hashes, profileId: Digest, s: Ledger, script: Bytes, id: Digest, funds: seq<Funding>,
                     registry: Option<Spk>, rest: int): Transaction
    requires Fits(s)
  {
    Transaction(1, FundingTxInputs(funds), OpeningOutputs(h, script, id, s.ownerKey, registry, rest), 0, Zeros(20), 0,
                Ascii("KASWIN_GENESIS_V2") + profileId + LedgerBytes(s), 0)
  }

  /** What the check of a finished draft asks for, when the funding inputs are all the inputs. */
  lemma FundedPasses(tx: Transaction, funds: seq<Funding>, owner: Bytes, fee: int)
    requires AllUsable(funds, owner) && tx.inputs == FundingTxInputs(funds) && ValidTransaction(tx)
    requires TotalFunding(funds) - TotalOut(tx.outputs) == fee > 0
    requires forall i | 0 <= i < |tx.outputs| :: Payable(tx.outputs[i].value)
    ensures AssertDraft(tx, funds, Genesis.AllIndices(|funds|), fee).Ok?
  {
    hide ValidTransaction, TotalFunding, TotalOut, Payable, AllUsable, BudgetsCover, Genesis.AllIndices, FundingTxInputs,
      DistinctInputs;
    OpeningInputs(funds, owner);
    assert DistinctInputs(tx) by { InputsDiffer(tx); }
    AllCovered(tx, funds);
  }

  lemma InputsDiffer(tx: Transaction)
    requires forall i, j | 0 <= i < j < |tx.inputs| :: tx.inputs[i].previousOutpoint != tx.inputs[j].previousOutpoint
    ensures DistinctInputs(tx)
  {
  }

  lemma AllCovered(tx: Transaction, funds: seq<Funding>)
    requires tx.inputs == FundingTxInputs(funds)
    ensures BudgetsCover(tx, Genesis.AllIndices(|funds|))
    ensures forall i | 0 <= i < |funds| :: funds[i].outpoint == tx.inputs[i].previousOutpoint
  {
    forall k | 0 <= k < |funds|
      ensures Genesis.AllIndices(|funds|)[k] == k && tx.inputs[k].computeBudget == Some(FUNDING_INPUT_BUDGET)
    {
    }
  }

  lemma OpeningPasses(h: Hashes, profileId: Digest, s: Ledger, script: Bytes, id: Digest, funds: seq<Funding>,
                      registry: Option<Spk>, fee: int)
    requires Fits(s) && s.directory == [] && GenesisGuard(s.ownerKey, s.config, funds, fee, registry)
    ensures AssertDraft(OpeningTx(h, profileId, s, script, id, funds, registry, TotalFunding(funds) - OpeningCost(registry, fee)),
                        funds, Genesis.AllIndices(|funds|), fee).Ok?
  {
    hide LedgerBytes, TotalFunding, TotalOut, OpeningOutputs, ValidConfig, Ascii, AssertDraft, ValidInput, ValidOutput, Payable,
      AllUsable, Fits, ValidTransaction, FundingTxInputs;
    var rest := TotalFunding(funds) - OpeningCost(registry, fee);
    var tx := OpeningTx(h, profileId, s, script, id, funds, registry, rest);
    OpeningTotal(h, script, id, s.ownerKey, registry, rest);
    OpeningInputs(funds, s.ownerKey);
    OpeningFits(h, script, id, s.ownerKey, registry, rest, |funds|);
    assert |funds| <= 8 by { Few(funds, s.ownerKey); }
    assert ValidTransaction(tx) by { TransactionFits(tx); }
    FundedPasses(tx, funds, s.ownerKey, fee);
  }

  lemma Few(funds: seq<Funding>, owner: Bytes)
    requires AllUsable(funds, owner)
    ensures |funds| <= 8
  {
  }

  lemma RegistryExactly(registry: Option<Spk>)
    ensures var r := Genesis.RegistryOutputs(registry);
            && (r.Ok? <==> registry.Some? ==> 0 <= registry.value.version < 0x1_0000 && 0 < |registry.value.script| <= 1_000_000)
            && (r.Ok? ==> r.value == if registry.Some? then [Output(20_000_000, registry.value, None)] else [])
  {
  }

  lemma IdDerived(h: Hashes, origin: Outpoint, script: Bytes)
    requires |origin.transactionId| == 32 && 0 <= origin.index < 0x1_0000_0000
    ensures RootId(h, origin, script).Ok?
  {
    Pow256Values();
  }

  lemma FirstUsable(funds: seq<Funding>, owner: Bytes)
    requires AllUsable(funds, owner) && funds != []
    ensures |funds[0].outpoint.transactionId| == 32 && 0 <= funds[0].outpoint.index < 0x1_0000_0000
  {
  }

  /** Past its first checks, a creation is decided by the check of its finished draft. */
  lemma CreatedIs(h: Hashes, p: Profile, profileId: Digest, owner: Bytes, config: Config, funds: seq<Funding>, fee: int,
                  registry: Option<Spk>, id: Digest)
    requires var s := NewOpen(owner, config);
             ValidLedger(s) && Decodable(s) && ValidateLedger(s).Ok? && funds != [] && FundingInputs(funds, owner).Ok?
             && Genesis.RegistryOutputs(registry).Ok? && RootId(h, funds[0].outpoint, ScriptOf(s, p)) == Ok(id)
    requires 0 < fee <= 50_000_000 && OpeningCost(registry, fee) <= TotalFunding(funds)
    ensures var s := NewOpen(owner, config);
            var tx := OpeningTx(h, profileId, s, ScriptOf(s, p), id, funds, registry, TotalFunding(funds) - OpeningCost(registry, fee));
            var passed := AssertDraft(tx, funds, Genesis.AllIndices(|funds|), fee);
            (Genesis.BuildOpenGenesis(h, p, profileId, owner, config, funds, fee, registry)
             == if passed.Ok? then Ok(Genesis.Created(tx, funds, Genesis.AllIndices(|funds|), funds[0].outpoint, id,
                                                      OpeningCost(registry, fee), fee)) else Err(passed.code))
  {
    hide LedgerBytes, TotalFunding, ValidLedger, Decodable, Ascii, AssertDraft, ScriptOf, RootId, FundingInputs, ValidateLedger,
      FundingTxInputs, Genesis.RegistryOutputs, P2sh, OpeningOutputs, Genesis.ChangeOutputs;
    RegistryExactly(registry);
    OutputsAre(h, ScriptOf(NewOpen(owner, config), p), id, owner, registry, TotalFunding(funds) - OpeningCost(registry, fee));
  }

  lemma OutputsAre(h: Hashes, script: Bytes, id: Digest, owner: Bytes, registry: Option<Spk>, rest: int)
    ensures OpeningOutputs(h, script, id, owner, registry, rest)
         == [Output(400_000_000, P2sh(h.blake2b(script)), Some(Binding(id, 0)))]
            + (if registry.Some? then [Output(20_000_000, registry.value, None)] else [])
            + Genesis.ChangeOutputs(rest, owner)
  {
  }

  /** A creation that passes its first checks. */
  lemma CreatedNeeds(h: Hashes, p: Profile, profileId: Digest, owner: Bytes, config: Config, funds: seq<Funding>, fee: int,
                     registry: Option<Spk>)
    requires Genesis.BuildOpenGenesis(h, p, profileId, owner, config, funds, fee, registry).Ok?
    ensures ValidateLedger(NewOpen(owner, config)).Ok? && funds != [] && FundingInputs(funds, owner).Ok?
    ensures Genesis.RegistryOutputs(registry).Ok? && 0 < fee <= 50_000_000 && OpeningCost(registry, fee) <= TotalFunding(funds)
  {
    hide LedgerBytes, TotalFunding, ValidLedger, Decodable, Ascii, AssertDraft, ScriptOf, RootId, FundingInputs, ValidateLedger,
      FundingTxInputs, Genesis.RegistryOutputs, P2sh, P2pk;
  }

  /** Change beyond the value limit is refused. */
  lemma ChangeBounded(h: Hashes, profileId: Digest, s: Ledger, script: Bytes, id: Digest, funds: seq<Funding>,
                      registry: Option<Spk>, rest: int, fee: int)
    requires Fits(s)
    requires AssertDraft(OpeningTx(h, profileId, s, script, id, funds, registry, rest), funds, Genesis.AllIndices(|funds|), fee).Ok?
    ensures rest <= 9_000_000_000_000_000
  {
    hide LedgerBytes, Ascii, ValidTransaction, DistinctInputs, TotalFunding, TotalOut, BudgetsCover, FundingTxInputs;
    if rest > 0 {
      var os := OpeningOutputs(h, script, id, s.ownerKey, registry, rest);
      assert Payable(os[|os| - 1].value);
    }
  }

  /** A round opens exactly for a valid configuration of a 32-byte owner, a fit registry if there is one, and usable funding
      that covers what it costs and leaves at most one output's worth of change. The transaction is then given outright. */
  lemma GenesisExactly(h: Hashes, p: Profile, profileId: Digest, owner: Bytes, config: Config, funds: seq<Funding>, fee: int,
                       registry: Option<Spk>)
    ensures var r, s := Genesis.BuildOpenGenesis(h, p, profileId, owner, config, funds, fee, registry), NewOpen(owner, config);
            && (r.Ok? <==> GenesisGuard(owner, config, funds, fee, registry))
            && (r.Ok? ==>
                  && Decodable(s) && Fits(s) && funds != []
                  && RootId(h, funds[0].outpoint, ScriptOf(s, p)) == Ok(r.value.covenantId)
                  && r.value.transaction == OpeningTx(h, profileId, s, ScriptOf(s, p), r.value.covenantId, funds, registry,
                                                      TotalFunding(funds) - OpeningCost(registry, fee))
                  && r.value.inputUtxos == funds && r.value.origin == funds[0].outpoint
                  && |r.value.authorizedInputIndices| == |funds|
                  && (forall i | 0 <= i < |funds| :: r.value.authorizedInputIndices[i] == i)
                  && r.value.walletDebit == OpeningCost(registry, fee) && r.value.fee == fee)
  {
    hide LedgerBytes, TotalFunding, ValidLedger, Decodable, ValidConfig, AssertDraft, AllUsable, ScriptOf, RootId, OpeningTx,
      FundingInputs, ValidateLedger, OpeningCost, Genesis.BuildOpenGenesis, Genesis.RegistryOutputs;
    var s := NewOpen(owner, config);
    ValidateIsValid(s);
    NewOpenValid(owner, config);
    RegistryExactly(registry);
    var r := Genesis.BuildOpenGenesis(h, p, profileId, owner, config, funds, fee, registry);
    if r.Ok? {
      CreatedNeeds(h, p, profileId, owner, config, funds, fee, registry);
    }
    if r.Ok? || GenesisGuard(owner, config, funds, fee, registry) {
      ValidIsDecodable(s);
      FundingExactly(funds, owner);
      FirstUsable(funds, owner);
      IdDerived(h, funds[0].outpoint, ScriptOf(s, p));
      var id := RootId(h, funds[0].outpoint, ScriptOf(s, p)).value;
      CreatedIs(h, p, profileId, owner, config, funds, fee, registry, id);
      if r.Ok? {
        ChangeBounded(h, profileId, s, ScriptOf(s, p), id, funds, registry, TotalFunding(funds) - OpeningCost(registry, fee), fee);
      } else {
        OpeningPasses(h, profileId, s, ScriptOf(s, p), id, funds, registry, fee);
      }
    }
  }
}
