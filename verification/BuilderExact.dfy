/** When the builder succeeds: exactly when the transition does and the funding, budget and payload fit
    (scripts/core/src/builders.ts:16-59, scripts/core/src/protocol.ts:59-89). */
module BuilderExact {
  import opened Results
  import opened Bytes
  import opened Layout
  import opened State
  import opened Directory
  import opened Scripts
  import opened Tx
  import opened Frames
  import opened Protocol
  import opened ContractSteps
  import opened Builders
  import opened BuilderReader
  import Accepted
  import ContractReader
  import Draws
  import Lineage
  import ReaderWitness
  import Sil

  // ---------------------------------------------------------------- a transition balances

  function Paid(payments: seq<Payment>): int {
    if payments == [] then 0 else Paid(payments[..|payments| - 1]) + payments[|payments| - 1].value
  }

  lemma {:induction false} PaidConcat(a: seq<Payment>, b: seq<Payment>)
    ensures Paid(a + b) == Paid(a) + Paid(b)
  {
    if b == [] {
      assert a + b == a;
    } else {
      var n := |b| - 1;
      assert (a + b)[..|a + b| - 1] == a + b[..n];
      PaidConcat(a, b[..n]);
    }
  }

  lemma PaidOne(v: Payment)
    ensures Paid([v]) == v.value
  {
    assert [v][..0] == [];
  }

  lemma {:induction false} OutputsPaid(payments: seq<Payment>)
    ensures TotalOut(PaymentOutputs(payments)) == Paid(payments)
  {
    if payments != [] {
      var n := |payments| - 1;
      OutputsPaid(payments[..n]);
      assert PaymentOutputs(payments)[..n] == PaymentOutputs(payments[..n]);
    }
  }

  /** What the state output of the successor holds. */
  function Kept(t: Transition): int
    requires t.next.Some? ==> ValidLedger(t.next.value)
  {
    if t.next.Some? then ValueOf(t.next.value) else 0
  }

  /** Every payment is an ordinary one within the value limit. */
  predicate Ordinary(payments: seq<Payment>) {
    forall i | 0 <= i < |payments| :: Payable(payments[i].value) && payments[i].spk.version == 0
  }

  /** What a transition may carry into a witness and a transaction. */
  predicate Fitting(t: Transition) {
    && Ordinary(t.payments) && |t.data| <= 244 && |t.foreignTail| <= 65535
    && 0 <= t.lockTime < DAA_LIMIT && 0 <= t.sequence <= TIMEOUT_DELAY
  }

  /** Before change: the plan accounts for the state value and the fee, up to the external value it asks for. */
  predicate Balanced(x: Snapshot, t: Transition, fee: int) {
    (t.next.Some? ==> ValidLedger(t.next.value)) && Kept(t) + Paid(t.payments) == x.value + t.requiredExternal - fee
  }

  lemma BuyBalances(x: Snapshot, s: Ledger, op: Operation, fee: int, t: Transition)
    requires ValidLedger(s) && x.value == ValueOf(s) && BuyPlan(s, op, fee) == Ok(t)
    ensures Fitting(t) && Balanced(x, t, fee)
  {
    hide ValidLedger, ValueOf, Cost, AppendPurchase, RecordBytes;
    var q := op.quantity.value;
    AppendIsBought(s, q, op.actorKey);
    PurchaseKeepsValid(s, q, op.actorKey);
  }

  lemma CloseBalances(p: Profile, x: Snapshot, s: Ledger, fee: int, t: Transition)
    requires ValidLedger(s) && s.phase == OPEN && x.value == ValueOf(s) && ClosePlan(p, s, fee) == Ok(t)
    ensures Fitting(t) && Balanced(x, t, fee)
  {
    hide ValueOf, Cost, P2pk, StartAt, Ascending;
    if s.sold == 0 {
      EmptyValue(s);
      PaidOne(t.payments[0]);
      P2pkVersion();
    } else {
      ClosedValid(s);
    }
  }

  lemma EmptyValue(s: Ledger)
    requires ValidLedger(s) && s.phase == OPEN && s.sold == 0
    ensures ValueOf(s) == DEPOSIT
  {
  }

  lemma P2pkVersion()
    ensures forall key :: P2pk(key).version == 0
  {
  }

  lemma SealedValue(s: Ledger)
    requires ValidLedger(s) && s.phase == SEALED
    ensures ValueOf(s) == DEPOSIT + Cost(s.sold, s.config.ticketPrice)
  {
  }

  lemma DrawBalances(h: Hashes, x: Snapshot, s: Ledger, op: Operation, fee: int, t: Transition)
    requires ValidLedger(s) && Decodable(s) && s.phase == SEALED && x.tip.index >= 0 && x.value == ValueOf(s) && fee > 0
    requires DrawPlan(h, x, s, op, fee, 0) == Ok(t)
    ensures Fitting(t) && Balanced(x, t, fee)
  {
    hide ValidLedger, Decodable, ValueOf, Cost, P2pk, DrawPlan, DrawWinner, KeyAt, Le;
    DrawPlanned(h, x, s, op, t, fee);
    var w := DrawWinner(h, x, s, op.opening.value, op.accessor.value).value;
    WinnerAuthenticated(h, x, s, op.opening.value, op.accessor.value);
    SealedValue(s);
    ThreePaid(t.payments);
    PrizePayable(s, fee);
    P2pkVersion();
  }

  lemma ThreePaid(v: seq<Payment>)
    requires |v| == 3
    ensures Paid(v) == v[0].value + v[1].value + v[2].value
  {
    PaidConcat([v[0]], [v[1]]);
    PaidConcat([v[0], v[1]], [v[2]]);
    PaidOne(v[0]);
    PaidOne(v[1]);
    PaidOne(v[2]);
    assert [v[0]] + [v[1]] == [v[0], v[1]] && [v[0], v[1]] + [v[2]] == v;
  }

  lemma PrizePayable(s: Ledger, fee: int)
    requires ValidLedger(s) && fee > 0 && Prize(s, fee) >= MIN_PRICE
    ensures Payable(Prize(s, fee))
  {
    hide ValidLedger, Cost;
    ValidParts(s);
    PriceBound(s.sold, s.config.ticketPrice, s.config.ticketCap);
  }

  lemma TimeoutBalances(p: Profile, x: Snapshot, s: Ledger, fee: int, t: Transition)
    requires ValidLedger(s) && s.phase == SEALED && x.value == ValueOf(s) && TimeoutPlan(p, x, s, fee) == Ok(t)
    ensures Fitting(t) && Balanced(x, t, fee)
  {
    hide ValidLedger, ValueOf;
    TimedOutValid(s);
  }

  /** The refunds of a stretch of records are its ticket value less a fee for each. */
  lemma {:induction false} RefundsPaid(s: Ledger, n: nat)
    requires ValidLedger(s) && 0 <= s.cursor && s.cursor + n <= s.purchaseCount
    ensures var r := RefundPayments(RecordList(s.directory, s.purchaseCount), s.config.ticketPrice, s.cursor, n);
            r.Ok? ==>
              && Ordinary(r.value)
              && Paid(r.value) == Cost(StartAt(s.directory, s.cursor + n) - StartAt(s.directory, s.cursor), s.config.ticketPrice)
                                  - n * REFUND_FEE
  {
    hide ValidLedger, StartAt, EndAt, KeyAt, Cost, P2pk, Ordinary, Paid;
    ValidParts(s);
    var price := s.config.ticketPrice;
    var rs := RecordList(s.directory, s.purchaseCount);
    if n == 0 {
      NoTickets(price);
      NothingPaid();
    } else if RefundPayments(rs, price, s.cursor, n).Ok? {
      RefundsPaid(s, n - 1);
      var before := RefundPayments(rs, price, s.cursor, n - 1).value;
      var i := s.cursor + n - 1;
      var refund := Payment(Cost(rs[i].count, price) - REFUND_FEE, P2pk(rs[i].key), BUYER_REFUND);
      PaidConcat(before, [refund]);
      PaidOne(refund);
      AlsoOrdinary(before, refund, rs[i].key);
      NextStart(s.directory, i);
      Distribute(StartAt(s.directory, i) - StartAt(s.directory, s.cursor), rs[i].count, price);
    }
  }

  lemma AlsoOrdinary(before: seq<Payment>, v: Payment, key: Bytes)
    requires Ordinary(before) && Payable(v.value) && v.spk == P2pk(key)
    ensures Ordinary(before + [v])
  {
  }

  lemma NextStart(dir: Bytes, i: nat)
    requires HasRecords(dir, i + 1)
    ensures StartAt(dir, i + 1) - StartAt(dir, i) == RecordAt(dir, i).count
  {
  }

  lemma NothingPaid()
    ensures Ordinary([]) && Paid([]) == 0
  {
  }

  lemma NoTickets(price: int)
    ensures Cost(0, price) == 0
  {
  }

  lemma RefundBalances(x: Snapshot, s: Ledger, op: Operation, fee: int, external: int, t: Transition)
    requires ValidLedger(s) && s.phase == REFUNDING && x.value == ValueOf(s) && RefundPlan(s, op, fee, external) == Ok(t)
    ensures Fitting(t) && (t.next.Some? ==> ValidLedger(t.next.value))
    ensures Kept(t) + Paid(t.payments) == x.value + external - fee
  {
    hide ValidLedger, ValueOf, Cost, P2pk, RefundPlan, RefundPayments, BatchSize, IsLast, Pool, StartAt, RecordAt, Paid, Fitting,
      Ordinary;
    var refunds := RefundPlanned(s, op, t, fee, external);
    RefundsPaid(s, BatchSize(s));
    PoolIs(s);
    ExecutorPayable(s, op, fee, external);
    RefundPayouts(s, op, fee, external, t, refunds);
    RefundKept(s, t, op, fee, external, refunds);
  }

  /** The payments of a batch: the refunds, the deposit with the last one, and the executor. */
  lemma RefundPayouts(s: Ledger, op: Operation, fee: int, external: int, t: Transition, refunds: seq<Payment>)
    requires t == RefundTransition(s, op, fee, external, refunds, t.requiredExternal)
    requires Ordinary(refunds) && Payable(external + Pool(s) - fee)
    ensures Fitting(t)
    ensures Paid(t.payments) == Paid(refunds) + (if IsLast(s) then DEPOSIT - REFUND_FEE else 0) + external + Pool(s) - fee
  {
    hide P2pk, BatchSize, IsLast, Pool, Paid, Ordinary;
    var executor := Payment(external + Pool(s) - fee, P2pk(op.actorKey), EXECUTOR);
    var deposit := Payment(DEPOSIT - REFUND_FEE, P2pk(s.ownerKey), CREATOR);
    PaidOne(executor);
    AlsoOrdinary(refunds, deposit, s.ownerKey);
    if IsLast(s) {
      PaidOne(deposit);
      PaidConcat(refunds, [deposit]);
      PaidConcat(refunds + [deposit], [executor]);
      AlsoOrdinary(refunds + [deposit], executor, op.actorKey);
    } else {
      assert refunds + [] == refunds;
      PaidConcat(refunds, [executor]);
      AlsoOrdinary(refunds, executor, op.actorKey);
    }
  }

  lemma PoolIs(s: Ledger)
    ensures Pool(s) == BatchSize(s) * REFUND_FEE + if IsLast(s) then REFUND_FEE else 0
  {
    hide BatchSize, IsLast;
  }

  lemma ExecutorPayable(s: Ledger, op: Operation, fee: int, external: int)
    requires ValidLedger(s) && s.phase == REFUNDING && RefundPlan(s, op, fee, external).Ok?
    ensures Payable(external + Pool(s) - fee)
  {
    hide ValidLedger, Pool, BatchSize, IsLast, RefundBatch, RefundPayments, Records;
    ContractReader.BatchAgrees(s);
  }

  /** The state value goes down by what the batch refunds, and to nothing with the last batch. */
  lemma RefundKept(s: Ledger, t: Transition, op: Operation, fee: int, external: int, refunds: seq<Payment>)
    requires ValidLedger(s) && s.phase == REFUNDING
    requires t == RefundTransition(s, op, fee, external, refunds, t.requiredExternal)
    requires 0 <= s.cursor && 0 < BatchSize(s) && s.cursor + BatchSize(s) <= s.purchaseCount
    requires HasRecords(s.directory, s.purchaseCount)
    ensures t.next.Some? ==> ValidLedger(t.next.value)
    ensures Kept(t) + (if IsLast(s) then DEPOSIT else 0)
            + Cost(StartAt(s.directory, s.cursor + BatchSize(s)) - StartAt(s.directory, s.cursor), s.config.ticketPrice)
         == ValueOf(s)
  {
    hide ValidLedger, Cost, P2pk, BatchSize, IsLast, Pool, StartAt;
    if IsLast(s) {
      BatchGrossBound(s);
      RefundingValue(s);
    } else {
      AdvancedValid(s);
    }
  }

  lemma RefundingValue(s: Ledger)
    requires ValidLedger(s) && s.phase == REFUNDING
    ensures 0 <= s.cursor && HasRecords(s.directory, s.cursor)
    ensures ValueOf(s) == DEPOSIT + Cost(s.sold - StartAt(s.directory, s.cursor), s.config.ticketPrice)
  {
    hide StartAt, Cost;
  }

  /** Every transition balances: what the successor keeps and the payments make the state value and the external value, less
      the fee; and all of it fits a transaction. */
  lemma TransitionBalances(h: Hashes, p: Profile, x: Snapshot, s: Ledger, op: Operation, fee: int, external: int)
    requires VerifySnapshot(h, p, x) == Ok(s) && ValidLedger(s) && TransitionOf(h, p, x, op, fee, external).Ok?
    ensures var t := TransitionOf(h, p, x, op, fee, external).value;
            && Fitting(t) && (t.next.Some? ==> ValidLedger(t.next.value))
            && Kept(t) + Paid(t.payments) == x.value + external - fee
  {
    hide VerifySnapshot, TransitionOf, ValidLedger, Decodable, ValueOf, Plan, BuyPlan, ClosePlan, DrawPlan, TimeoutPlan, RefundPlan,
      Accepted.Allowed, Fitting, Ordinary, Change, Verified;
    VerifyIsVerified(h, p, x, s);
    SnapshotValue(h, p, x, s);
    var planned, change := TransitionParts(h, p, x, s, op, fee, external);
    PlanOf(h, p, x, s, op, fee, external);
    PhaseOf(s, op);
    match op.action {
      case BUY => BuyBalances(x, s, op, fee, planned);
      case CLOSE => CloseBalances(p, x, s, fee, planned);
      case DRAW_AND_PAY =>
        DrawIsFree(h, x, s, op, fee, external);
        DrawBalances(h, x, s, op, fee, planned);
        assert planned.requiredExternal == 0 by { DrawAsksNothing(h, x, s, op, fee, planned); }
      case TIMEOUT_REFUND => TimeoutBalances(p, x, s, fee, planned);
      case REFUND => RefundBalances(x, s, op, fee, external, planned);
    }
    ChangePaid(op, planned, external, change);
  }

  lemma SnapshotValue(h: Hashes, p: Profile, x: Snapshot, s: Ledger)
    requires Verified(h, p, x, s)
    ensures ValidLedger(s) && Decodable(s) && x.value == ValueOf(s) && 0 <= x.tip.index && s.phase in {OPEN, SEALED, REFUNDING}
  {
    hide LedgerBytes, RootPreimage, ScriptOf, RootScript, P2sh, ValueOf;
  }

  lemma PlanOf(h: Hashes, p: Profile, x: Snapshot, s: Ledger, op: Operation, fee: int, external: int)
    requires Decodable(s) && x.tip.index >= 0
    ensures Plan(h, p, x, s, op, fee, external)
         == match op.action
            case BUY => BuyPlan(s, op, fee)
            case CLOSE => ClosePlan(p, s, fee)
            case DRAW_AND_PAY => DrawPlan(h, x, s, op, fee, external)
            case TIMEOUT_REFUND => TimeoutPlan(p, x, s, fee)
            case REFUND => RefundPlan(s, op, fee, external)
  {
    hide BuyPlan, ClosePlan, DrawPlan, TimeoutPlan, RefundPlan;
  }

  lemma PhaseOf(s: Ledger, op: Operation)
    requires s.phase in {OPEN, SEALED, REFUNDING} && Accepted.Allowed(PhaseModule(s.phase), op.action)
    ensures op.action in {BUY, CLOSE} ==> s.phase == OPEN
    ensures op.action in {DRAW_AND_PAY, TIMEOUT_REFUND} ==> s.phase == SEALED
    ensures op.action == REFUND ==> s.phase == REFUNDING
  {
  }

  lemma DrawAsksNothing(h: Hashes, x: Snapshot, s: Ledger, op: Operation, fee: int, t: Transition)
    requires Decodable(s) && x.tip.index >= 0 && DrawPlan(h, x, s, op, fee, 0) == Ok(t)
    ensures t.requiredExternal == 0
  {
    hide DrawWinner, Records;
  }

  /** Change makes up the difference between the external value and what the plan asks for. */
  lemma ChangePaid(op: Operation, planned: Transition, external: int, change: seq<Payment>)
    requires Change(op, planned, external) == Ok(change) && Fitting(planned)
    ensures Fitting(planned.(payments := planned.payments + change))
    ensures Paid(planned.payments + change)
         == Paid(planned.payments) + if op.action in {DRAW_AND_PAY, REFUND} then 0 else external - planned.requiredExternal
  {
    hide P2pk, Paid, Ordinary;
    if change == [] {
      assert planned.payments + change == planned.payments;
    } else {
      assert change == [change[0]];
      PaidConcat(planned.payments, change);
      PaidOne(change[0]);
      AlsoOrdinary(planned.payments, change[0], op.actorKey);
    }
  }

  // ---------------------------------------------------------------- a witness always builds

  lemma BytesPushed(b: Bytes)
    requires |b| <= 100_000
    ensures PushBytes(b).Ok? && |PushBytes(b).value| <= |b| + 5
  {
    hide Le;
  }

  lemma ArgumentsBuild(op: Operation, t: Transition, tailLength: nat, fee: nat)
    requires tailLength <= 65535 && |op.actorKey| == KEY_BYTES && Fitting(t) && fee <= MAX_PAY_FEE
    ensures ArgumentBytes(op, t, tailLength, fee).Ok? && |ArgumentBytes(op, t, tailLength, fee).value| <= 66_000
  {
    hide PushBytes, PushInt, Ordinary;
    PushIntEncodes(tailLength);
    PushIntEncodes(fee);
    BytesPushed(t.foreignTail);
    BytesPushed(t.data);
    BytesPushed(op.actorKey);
  }

  lemma OriginBuilds(origin: Outpoint)
    requires |origin.transactionId| == 32 && 0 <= origin.index <= 0x7fff_ffff
    ensures OriginBytes(origin).Ok? && |OriginBytes(origin).value| <= 100
  {
    hide PushBytes, PushInt;
    PushIntEncodes(origin.index);
    BytesPushed(origin.transactionId);
  }

  lemma ActionPush(a: Action)
    ensures PushInt(ActionCode(a)).Ok? && |PushInt(ActionCode(a)).value| <= 9
  {
    hide PushInt;
    PushIntEncodes(ActionCode(a));
  }

  lemma WitnessBuilds(h: Hashes, p: Profile, x: Snapshot, s: Ledger, op: Operation, t: Transition, fee: int)
    requires Verified(h, p, x, s) && |op.actorKey| == KEY_BYTES && Fitting(t) && 0 < fee <= MAX_PAY_FEE
    ensures Witness(p, x, op, t, fee).Ok?
  {
    hide PushBytes, PushInt, LedgerBytes, DecodeLedger, ScriptOf, ValidLedger, Decodable, Verified, Fitting, OriginBytes, ArgumentBytes,
      ActionCode, Fits, ValueOf;
    SnapshotParts(h, p, x, s);
    DecodeOfEncode(s);
    var f := FrameOf(p, PhaseModule(s.phase));
    ActionPush(op.action);
    OriginBuilds(x.origin);
    ArgumentsBuild(op, t, |f.tail|, fee);
    BytesPushed(f.tag);
    ReaderWitness.ScriptOfLength(p, s);
    BytesPushed(ScriptOf(s, p));
  }

  lemma SnapshotParts(h: Hashes, p: Profile, x: Snapshot, s: Ledger)
    requires Verified(h, p, x, s)
    ensures ValidLedger(s) && Decodable(s) && x.ledger == LedgerBytes(s) && s.phase in {OPEN, SEALED, REFUNDING}
    ensures |x.origin.transactionId| == 32 && 0 <= x.origin.index <= 0x7fff_ffff
    ensures ValidOutpoint(x.tip) && |x.covenantId| == 32 && x.value == ValueOf(s)
  {
    hide LedgerBytes, RootPreimage, ScriptOf, RootScript, P2sh, ValueOf;
  }

  // ---------------------------------------------------------------- the draft check never fires

  lemma {:induction false} FundsKeyed(funds: seq<Funding>, key: Bytes)
    requires FundsChecked(funds, key).Ok?
    ensures forall i | 0 <= i < |funds| :: ValidOutpoint(funds[i].outpoint)
    ensures forall i, j | 0 <= i < j < |funds| :: funds[i].outpoint != funds[j].outpoint
  {
    if funds != [] {
      FundsKeyed(funds[..|funds| - 1], key);
    }
  }

  lemma InputsFit(x: Snapshot, t: Transition, signature: Bytes, budget: int, funds: seq<Funding>, key: Bytes, tx: Transaction)
    requires FundsChecked(funds, key).Ok? && !Seen(funds, x.tip) && ValidOutpoint(x.tip) && 0 <= budget <= 65535
    requires 0 <= t.sequence <= TIMEOUT_DELAY
    requires tx.inputs == [Input(x.tip, signature, t.sequence, Some(budget), None)] + FundingTxInputs(funds)
    ensures (forall i | 0 <= i < |tx.inputs| :: ValidInput(tx.inputs[i])) && DistinctInputs(tx)
    ensures forall i | 1 <= i <= |funds| :: tx.inputs[i].previousOutpoint == funds[i - 1].outpoint
                                            && tx.inputs[i].computeBudget == Some(FUNDING_INPUT_BUDGET)
  {
    hide FundsChecked;
    FundsKeyed(funds, key);
    forall i | 0 <= i < |tx.inputs|
      ensures ValidInput(tx.inputs[i])
    {
      if i > 0 {
        assert tx.inputs[i] == FundingTxInputs(funds)[i - 1];
      }
    }
    forall i, j | 0 <= i < j < |tx.inputs|
      ensures tx.inputs[i].previousOutpoint != tx.inputs[j].previousOutpoint
    {
      assert tx.inputs[j] == FundingTxInputs(funds)[j - 1];
      if i > 0 {
        assert tx.inputs[i] == FundingTxInputs(funds)[i - 1];
      }
    }
  }

  lemma OutputsFit(h: Hashes, p: Profile, x: Snapshot, t: Transition, outputs: seq<Output>, inputCount: nat)
    requires (t.next.Some? ==> ValidLedger(t.next.value) && Decodable(t.next.value)) && Ordinary(t.payments)
    requires outputs == StateOutput(h, p, x, t.next) + PaymentOutputs(t.payments) && |x.covenantId| == 32 && inputCount > 0
    ensures forall i | 0 <= i < |outputs| :: ValidOutput(outputs[i], 1, inputCount) && Payable(outputs[i].value)
    ensures TotalOut(outputs) == Kept(t) + Paid(t.payments)
  {
    hide ValidLedger, Decodable, ScriptOf, TotalOut, Paid, Ordinary, StateOutput, PaymentOutputs, ValidOutput;
    var state := StateOutput(h, p, x, t.next);
    TotalOutConcat(state, PaymentOutputs(t.payments));
    OutputsPaid(t.payments);
    StateTotal(h, p, x, t);
    forall i | 0 <= i < |outputs|
      ensures ValidOutput(outputs[i], 1, inputCount) && Payable(outputs[i].value)
    {
      if i < |state| {
        assert outputs[i] == state[i];
        StateFits(h, p, x, t, inputCount);
      } else {
        assert outputs[i] == PaymentOutputs(t.payments)[i - |state|];
        PaymentFits(t.payments, i - |state|, inputCount);
      }
    }
  }

  lemma StateFits(h: Hashes, p: Profile, x: Snapshot, t: Transition, inputCount: nat)
    requires (t.next.Some? ==> ValidLedger(t.next.value) && Decodable(t.next.value)) && |x.covenantId| == 32 && inputCount > 0
    ensures forall o | o in StateOutput(h, p, x, t.next) :: ValidOutput(o, 1, inputCount) && Payable(o.value)
  {
    hide ValidLedger, Decodable, ScriptOf;
  }

  lemma PaymentFits(payments: seq<Payment>, i: nat, inputCount: nat)
    requires Ordinary(payments) && i < |payments|
    ensures ValidOutput(PaymentOutputs(payments)[i], 1, inputCount) && Payable(PaymentOutputs(payments)[i].value)
  {
  }

  lemma StateTotal(h: Hashes, p: Profile, x: Snapshot, t: Transition)
    requires t.next.Some? ==> ValidLedger(t.next.value) && Decodable(t.next.value)
    ensures TotalOut(StateOutput(h, p, x, t.next)) == Kept(t)
  {
    hide ValidLedger, Decodable, ScriptOf, P2sh, ValueOf;
    if t.next.Some? {
      assert StateOutput(h, p, x, t.next)[..0] == [];
    }
  }

  /** The funding, the budget and the payload that a build is given. */
  predicate Affordable(x: Snapshot, op: Operation, funds: seq<Funding>, budget: int, payload: Bytes) {
    && 0 <= budget <= 65535 && FundingInputs(funds, op.actorKey).Ok? && !Seen(funds, x.tip) && |payload| <= 16 * 1024 * 1024
  }

  lemma DraftPasses(h: Hashes, p: Profile, x: Snapshot, s: Ledger, op: Operation, fee: int, funds: seq<Funding>, budget: int,
                    payload: Bytes, signature: Bytes)
    requires Verified(h, p, x, s) && Affordable(x, op, funds, budget, payload)
    requires TransitionOf(h, p, x, op, fee, TotalFunding(funds)).Ok?
    ensures var t := TransitionOf(h, p, x, op, fee, TotalFunding(funds)).value;
            var input0 := Funding(x.tip, x.value, x.scriptPublicKey, x.utxoDaa, Some(x.covenantId));
            && (t.next.Some? ==> ValidLedger(t.next.value) && Decodable(t.next.value))
            && AssertDraft(Assembled(h, p, x, t, signature, budget, funds, payload), [input0] + funds, Indices(|funds|), fee).Ok?
  {
    hide Verified, VerifySnapshot, TransitionOf, FundsChecked, Seen, ValidLedger, Decodable, ScriptOf, Paid, TotalOut, StateOutput,
      TotalFunding, ValidInput, ValidOutput, Ordinary, ValueOf, AssertDraft, Assembled, FundingInputs, DistinctInputs, Indices;
    VerifyIsVerified(h, p, x, s);
    SnapshotParts(h, p, x, s);
    var t := TransitionOf(h, p, x, op, fee, TotalFunding(funds)).value;
    PlannedNext(h, p, x, op, fee, TotalFunding(funds));
    TransitionBalances(h, p, x, s, op, fee, TotalFunding(funds));
    var input0 := Funding(x.tip, x.value, x.scriptPublicKey, x.utxoDaa, Some(x.covenantId));
    TotalWith(input0, funds);
    var tx := Assembled(h, p, x, t, signature, budget, funds, payload);
    AssembledParts(h, p, x, t, signature, budget, funds, payload);
    FundsFew(funds, op.actorKey);
    InputsFit(x, t, signature, budget, funds, op.actorKey, tx);
    OutputsFit(h, p, x, t, tx.outputs, |tx.inputs|);
    FewOutputs(h, p, x, s, op, fee, TotalFunding(funds), tx);
    TransactionFits(tx);
    Passes(tx, input0, funds, fee);
  }

  lemma FundsFew(funds: seq<Funding>, key: Bytes)
    requires FundingInputs(funds, key).Ok?
    ensures |funds| <= 8 && FundsChecked(funds, key).Ok?
  {
    hide FundsChecked;
  }

  lemma AssembledParts(h: Hashes, p: Profile, x: Snapshot, t: Transition, signature: Bytes, budget: int, funds: seq<Funding>,
                       payload: Bytes)
    requires t.next.Some? ==> ValidLedger(t.next.value) && Decodable(t.next.value)
    ensures var tx := Assembled(h, p, x, t, signature, budget, funds, payload);
            && tx.version == 1 && tx.lockTime == t.lockTime && tx.gas == 0 && tx.storageMass == 0 && tx.payload == payload
            && |tx.subnetworkId| == 20
            && tx.inputs == [Input(x.tip, signature, t.sequence, Some(budget), None)] + FundingTxInputs(funds)
            && tx.outputs == StateOutput(h, p, x, t.next) + PaymentOutputs(t.payments)
  {
    hide ValidLedger, Decodable, ScriptOf, StateOutput, PaymentOutputs;
  }

  lemma TransactionFits(tx: Transaction)
    requires tx.version == 1 && 0 <= tx.lockTime < DAA_LIMIT && tx.gas == 0 && tx.storageMass == 0 && |tx.subnetworkId| == 20
    requires |tx.payload| <= 16 * 1024 * 1024 && |tx.outputs| <= 34 && |tx.inputs| <= 9
    requires forall i | 0 <= i < |tx.inputs| :: ValidInput(tx.inputs[i])
    requires forall i | 0 <= i < |tx.outputs| :: ValidOutput(tx.outputs[i], 1, |tx.inputs|)
    ensures ValidTransaction(tx)
  {
    hide ValidInput, ValidOutput;
  }

  lemma OutpointsMatch(tx: Transaction, input0: Funding, funds: seq<Funding>)
    requires |tx.inputs| == |funds| + 1 && tx.inputs[0].previousOutpoint == input0.outpoint
    requires forall i | 1 <= i <= |funds| :: tx.inputs[i].previousOutpoint == funds[i - 1].outpoint
    ensures forall i | 0 <= i < |[input0] + funds| :: ([input0] + funds)[i].outpoint == tx.inputs[i].previousOutpoint
  {
    forall i | 0 <= i < |funds| + 1
      ensures ([input0] + funds)[i].outpoint == tx.inputs[i].previousOutpoint
    {
      assert i > 0 ==> tx.inputs[i].previousOutpoint == funds[i - 1].outpoint;
    }
  }

  /** The facts that the draft check asks for. */
  lemma Passes(tx: Transaction, input0: Funding, funds: seq<Funding>, fee: int)
    requires ValidTransaction(tx) && DistinctInputs(tx) && |tx.inputs| == |funds| + 1
    requires forall i | 0 <= i < |tx.outputs| :: Payable(tx.outputs[i].value)
    requires tx.inputs[0].previousOutpoint == input0.outpoint
    requires forall i | 1 <= i <= |funds| :: tx.inputs[i].previousOutpoint == funds[i - 1].outpoint
                                             && tx.inputs[i].computeBudget == Some(FUNDING_INPUT_BUDGET)
    requires TotalFunding([input0] + funds) - TotalOut(tx.outputs) == fee > 0
    ensures AssertDraft(tx, [input0] + funds, Indices(|funds|), fee).Ok?
  {
    hide ValidTransaction, DistinctInputs, TotalFunding, TotalOut, Payable, BudgetsCover;
    OutpointsMatch(tx, input0, funds);
    BudgetsPass(tx, |funds|);
  }

  lemma BudgetsPass(tx: Transaction, n: nat)
    requires |tx.inputs| == n + 1
    requires forall i | 1 <= i <= n :: tx.inputs[i].computeBudget == Some(FUNDING_INPUT_BUDGET)
    ensures BudgetsCover(tx, Indices(n))
  {
    forall k | 0 <= k < n
      ensures Indices(n)[k] == k + 1 && tx.inputs[k + 1].computeBudget == Some(FUNDING_INPUT_BUDGET)
    {
    }
  }

  lemma FewOutputs(h: Hashes, p: Profile, x: Snapshot, s: Ledger, op: Operation, fee: int, external: int, tx: Transaction)
    requires VerifySnapshot(h, p, x) == Ok(s) && TransitionOf(h, p, x, op, fee, external).Ok?
    requires var t := TransitionOf(h, p, x, op, fee, external).value;
             && (t.next.Some? ==> ValidLedger(t.next.value) && Decodable(t.next.value))
             && tx.outputs == StateOutput(h, p, x, t.next) + PaymentOutputs(t.payments)
    ensures |tx.outputs| <= 34 && 0 < fee
  {
    hide VerifySnapshot, Plan, AvailableActions, Change, ValidLedger, Decodable, ValidateLedger, ScriptOf, ValueOf, P2sh;
  }

  /** The builder succeeds exactly when the transition does with the funding's total, and the funding, the budget and the
      payload are fit; the witness always builds, and the check on the finished draft never fires. */
  lemma BuildExactly(h: Hashes, p: Profile, x: Snapshot, op: Operation, fee: int, funds: seq<Funding>, budget: int, payload: Bytes)
    ensures BuildAction(h, p, x, op, fee, funds, budget, payload).Ok?
       <==> Affordable(x, op, funds, budget, payload) && TransitionOf(h, p, x, op, fee, TotalFunding(funds)).Ok?
  {
    hide TransitionOf, VerifySnapshot, Witness, FundingInputs, AssertDraft, Seen, Assembled, TotalFunding, Returned, Verified;
    if BuildAction(h, p, x, op, fee, funds, budget, payload).Ok? {
      BuiltFits(h, p, x, op, fee, funds, budget, payload);
    }
    if Affordable(x, op, funds, budget, payload) && TransitionOf(h, p, x, op, fee, TotalFunding(funds)).Ok? {
      var s := TransitionSnapshot(h, p, x, op, fee, TotalFunding(funds));
      var t := TransitionOf(h, p, x, op, fee, TotalFunding(funds)).value;
      TransitionBalances(h, p, x, s, op, fee, TotalFunding(funds));
      WitnessBuilds(h, p, x, s, op, t, fee);
      DraftPasses(h, p, x, s, op, fee, funds, budget, payload, Witness(p, x, op, t, fee).value);
    }
  }

  lemma TransitionSnapshot(h: Hashes, p: Profile, x: Snapshot, op: Operation, fee: int, external: int) returns (s: Ledger)
    requires TransitionOf(h, p, x, op, fee, external).Ok?
    ensures VerifySnapshot(h, p, x) == Ok(s) && Verified(h, p, x, s) && ValidLedger(s)
    ensures |op.actorKey| == KEY_BYTES && 0 < fee <= MAX_PAY_FEE
  {
    hide VerifySnapshot, Plan, AvailableActions, Change, ValidateLedger, ValidLedger, LedgerBytes, RootPreimage, ScriptOf, RootScript,
      ValueOf, P2sh;
    s := VerifySnapshot(h, p, x).value;
    VerifyIsVerified(h, p, x, s);
  }

  lemma BuiltFits(h: Hashes, p: Profile, x: Snapshot, op: Operation, fee: int, funds: seq<Funding>, budget: int, payload: Bytes)
    requires BuildAction(h, p, x, op, fee, funds, budget, payload).Ok?
    ensures Affordable(x, op, funds, budget, payload) && TransitionOf(h, p, x, op, fee, TotalFunding(funds)).Ok?
  {
    hide TransitionOf, VerifySnapshot, Witness, FundingInputs, Seen, TotalFunding, Returned, DistinctInputs, TotalOut,
      BudgetsCover, StateOutput, ValidInput, ValidOutput;
    PlannedNext(h, p, x, op, fee, TotalFunding(funds));
  }
}
