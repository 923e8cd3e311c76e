/** When each action of the client is available and what exactly it plans: guards that a caller can check, and the whole
    transition (scripts/core/src/protocol.ts:19-89). */
module Transitions {
  import opened Results
  import opened Bytes
  import opened Layout
  import opened State
  import opened Directory
  import opened Scripts
  import opened Tx
  import opened Frames
  import opened Draws
  import opened Protocol
  import opened ContractSteps
  import Sil
  import Spends

  // ---------------------------------------------------------------- what all actions share

  predicate GoodFunds(op: Operation, fee: int, external: int) {
    |op.actorKey| == 32 && 0 < fee <= 50_000_000 && 0 <= external < 9_000_000_000_000_000
  }

  predicate Full(s: Ledger) {
    s.sold == s.config.ticketCap || s.purchaseCount == s.config.purchaseCap
  }

  /** What is left of the funding goes back to the actor. */
  function ChangeTo(key: Bytes, rest: int): seq<Payment> {
    if rest > 0 then [Payment(rest, P2pk(key), CHANGE)] else []
  }

  lemma ChangeIs(op: Operation, t: Transition, external: int)
    requires op.action in {BUY, CLOSE, TIMEOUT_REFUND} && 0 <= t.requiredExternal && external < 9_000_000_000_000_000
    ensures Change(op, t, external).Ok? <==> t.requiredExternal <= external
    ensures t.requiredExternal <= external ==>
              Change(op, t, external) == Ok(ChangeTo(op.actorKey, external - t.requiredExternal))
  {
    hide P2pk;
  }

  lemma FullMeans(s: Ledger)
    requires ValidLedger(s)
    ensures !Full(s) <==> s.sold < s.config.ticketCap && s.purchaseCount < s.config.purchaseCap
  {
    hide Ascending, StartAt, EndAt, ValidConfig;
  }

  lemma VerifiedFacts(h: Hashes, p: Profile, x: Snapshot, s: Ledger)
    requires Verified(h, p, x, s)
    ensures VerifySnapshot(h, p, x) == Ok(s) && ValidLedger(s) && Decodable(s) && x.tip.index >= 0
    ensures 0 <= x.utxoDaa < 500_000_000_000 && 0 <= x.currentDaa < 500_000_000_000
  {
    hide VerifySnapshot, ValidLedger, LedgerBytes, RootPreimage, ValueOf;
    VerifyIsVerified(h, p, x, s);
  }

  // ---------------------------------------------------------------- availability

  /** When an action is offered. */
  predicate Offered(x: Snapshot, s: Ledger, a: Action) {
    match a
    case BUY => s.phase == OPEN && s.sold < s.config.ticketCap && s.purchaseCount < s.config.purchaseCap
    case CLOSE => s.phase == OPEN && (Full(s) || x.currentDaa >= s.config.closeEligibleDaa)
    case DRAW_AND_PAY => s.phase == SEALED && x.currentDaa >= x.utxoDaa + 100
    case TIMEOUT_REFUND => s.phase == SEALED && x.currentDaa >= x.utxoDaa + 432_000
    case REFUND => s.phase == REFUNDING
  }

  /** Every live snapshot lists its actions, but for a SEALED one too near the DAA limit, and lists exactly those offered. */
  lemma AvailableExactly(h: Hashes, p: Profile, x: Snapshot, s: Ledger, a: Action)
    requires Verified(h, p, x, s)
    ensures var r := AvailableActions(h, p, x);
            && (r.Ok? <==> (s.phase == SEALED ==> x.utxoDaa < 499_999_568_000))
            && (r.Ok? ==> (a in r.value <==> Offered(x, s, a)))
  {
    hide VerifySnapshot, Verified, LedgerBytes, Ascending, StartAt, ValidConfig;
    VerifiedFacts(h, p, x, s);
  }

  /** What is left to show of a transition once its action is offered. */
  lemma OfferedPlans(h: Hashes, p: Profile, x: Snapshot, s: Ledger, op: Operation, fee: int, external: int)
    requires Verified(h, p, x, s)
    ensures ValidLedger(s) && Decodable(s) && x.tip.index >= 0
    ensures var r := TransitionOf(h, p, x, op, fee, external);
            && (r.Ok? ==> GoodFunds(op, fee, external) && Offered(x, s, op.action)
                          && (s.phase == SEALED ==> x.utxoDaa < 499_999_568_000))
            && (GoodFunds(op, fee, external) && Offered(x, s, op.action)
                && (s.phase == SEALED ==> x.utxoDaa < 499_999_568_000) ==>
                  r == Finished(Plan(h, p, x, s, op, fee, external), op, s, external))
  {
    hide VerifySnapshot, Verified, AvailableActions, Plan, Change, ValidLedger, ValidateLedger, Offered, Decodable, PhaseModule;
    VerifiedFacts(h, p, x, s);
    AvailableExactly(h, p, x, s, op.action);
  }

  /** A planned transition with its change, if the successor is valid and the outputs fit. */
  function Finished(planned: Result<Transition>, op: Operation, s: Ledger, external: int): Result<Transition> {
    var t :- planned;
    var change :- Change(op, t, external);
    var _ :- if t.next.Some? then ValidateLedger(t.next.value) else Ok(());
    var _ :- Check(StateOutputs(t) + |t.payments + change| <= OutputLimit(PhaseModule(s.phase)), OUTPUT_LIMIT);
    Ok(t.(payments := t.payments + change))
  }

  // ---------------------------------------------------------------- BUY

  function BuyTransition(s: Ledger, q: int, key: Bytes, fee: int, external: int): Transition
    requires 0 <= q && 0 <= s.sold + q
  {
    var next := s.(sold := s.sold + q, purchaseCount := s.purchaseCount + 1, directory := s.directory + Le(s.sold + q, 4) + key);
    var price := q * s.config.ticketPrice;
    Transition(Some(next), None, ChangeTo(key, external - price - fee), Le(q, 4), 0, 0, price + fee, [], None)
  }

  predicate BuyGuard(s: Ledger, q: int, fee: int, external: int) {
    && 1 <= q && s.sold + q <= s.config.ticketCap && s.purchaseCount < s.config.purchaseCap
    && q * s.config.ticketPrice + fee <= external
  }

  /** Buying succeeds exactly for a quantity that is still to be had, with a record to spare and funding for price and fee; the
      buyer's record is appended, and the buyer gets the change. */
  lemma BuyExactly(h: Hashes, p: Profile, x: Snapshot, s: Ledger, op: Operation, fee: int, external: int)
    requires Verified(h, p, x, s) && s.phase == OPEN && op.action == BUY
    ensures ValidLedger(s)
    ensures var r := TransitionOf(h, p, x, op, fee, external);
            && (r.Ok? <==> GoodFunds(op, fee, external) && op.quantity.Some? && BuyGuard(s, op.quantity.value, fee, external))
            && (r.Ok? ==> 0 <= s.sold && r.value == BuyTransition(s, op.quantity.value, op.actorKey, fee, external))
  {
    hide VerifySnapshot, Verified, TransitionOf, Plan, ValidLedger, Decodable, Finished, BuyTransition;
    OfferedPlans(h, p, x, s, op, fee, external);
    NeverBelow(s);
    if op.quantity.Some? {
      ToBuy(s, op.quantity.value);
    }
    if GoodFunds(op, fee, external) && Offered(x, s, op.action) {
      BuyPlanned(h, p, x, s, op, fee, external);
    }
  }

  lemma ToBuy(s: Ledger, q: int)
    requires ValidLedger(s)
    ensures 0 <= s.sold && (1 <= q && s.sold + q <= s.config.ticketCap ==> s.sold < s.config.ticketCap)
  {
  }

  lemma BuyPlanned(h: Hashes, p: Profile, x: Snapshot, s: Ledger, op: Operation, fee: int, external: int)
    requires ValidLedger(s) && Decodable(s) && x.tip.index >= 0 && s.phase == OPEN && op.action == BUY
    requires GoodFunds(op, fee, external) && 0 <= s.sold
    ensures var r := Finished(Plan(h, p, x, s, op, fee, external), op, s, external);
            && (r.Ok? <==> op.quantity.Some? && BuyGuard(s, op.quantity.value, fee, external))
            && (r.Ok? ==> r.value == BuyTransition(s, op.quantity.value, op.actorKey, fee, external))
  {
    hide ValidLedger, ValidateLedger, BuyPlan, Change, P2pk, ChangeTo, Le;
    OpenLimit(s);
    BuyPlanIs(s, op, fee);
    if op.quantity.Some? && CanBuy(s, op.quantity.value, op.actorKey) {
      var q := op.quantity.value;
      var t := BuyPlan(s, op, fee).value;
      PriceNotNegative(s, q);
      ChangeIs(op, t, external);
      ChangeSize(op.actorKey, external - t.requiredExternal);
      PurchaseKeepsValid(s, q, op.actorKey);
      ValidateIsValid(t.next.value);
      assert t.payments + ChangeTo(op.actorKey, external - t.requiredExternal)
          == ChangeTo(op.actorKey, external - t.requiredExternal);
    }
  }

  /** The plan of a purchase is its transition at exact funding. */
  lemma BuyPlanIs(s: Ledger, op: Operation, fee: int)
    requires ValidLedger(s) && s.phase == OPEN && |op.actorKey| == 32 && 0 <= s.sold
    ensures BuyPlan(s, op, fee).Ok? <==> op.quantity.Some? && CanBuy(s, op.quantity.value, op.actorKey)
    ensures op.quantity.Some? && CanBuy(s, op.quantity.value, op.actorKey) ==>
              var q := op.quantity.value;
              && BuyPlan(s, op, fee) == Ok(BuyTransition(s, q, op.actorKey, fee, q * s.config.ticketPrice + fee))
              && BuyTransition(s, q, op.actorKey, fee, q * s.config.ticketPrice + fee).next == Some(Bought(s, q, op.actorKey))
              && BuyTransition(s, q, op.actorKey, fee, q * s.config.ticketPrice + fee).payments == []
  {
    hide ValidLedger, AppendPurchase, Le;
    if op.quantity.Some? {
      var q := op.quantity.value;
      AppendIsBought(s, q, op.actorKey);
      if CanBuy(s, q, op.actorKey) {
        QuantityWritten(s, q);
        assert s.directory + (Le(s.sold + q, 4) + op.actorKey) == s.directory + Le(s.sold + q, 4) + op.actorKey;
      }
    }
  }

  lemma OpenLimit(s: Ledger)
    requires s.phase == OPEN
    ensures OutputLimit(PhaseModule(s.phase)) == 2
  {
  }

  lemma ChangeSize(key: Bytes, rest: int)
    ensures |ChangeTo(key, rest)| <= 1
  {
    hide P2pk;
  }

  lemma QuantityWritten(s: Ledger, q: int)
    requires ValidLedger(s) && 1 <= q && s.sold + q <= s.config.ticketCap
    ensures LeChecked(q, 4) == Ok(Le(q, 4))
  {
    hide Ascending, StartAt;
    Pow256Values();
  }

  lemma PriceNotNegative(s: Ledger, q: int)
    requires ValidLedger(s) && 0 <= q
    ensures 0 <= q * s.config.ticketPrice
  {
    hide Ascending, StartAt;
  }

  // ---------------------------------------------------------------- CLOSE

  function CloseTransition(p: Profile, s: Ledger, key: Bytes, fee: int, external: int): Transition {
    var lockTime := if Full(s) then 0 else s.config.closeEligibleDaa - 1;
    var change := ChangeTo(key, external - fee);
    if s.sold == 0 then
      Transition(None, Some(Sil.EMPTY), [Payment(400_000_000, P2pk(s.ownerKey), CREATOR)] + change, [], lockTime, 0, fee, [], None)
    else if s.sold >= s.config.minTickets then
      Transition(Some(s.(phase := SEALED)), None, change, [], lockTime, 0, fee, p.sealed.tail, None)
    else
      Transition(Some(s.(phase := REFUNDING)), None, change, [], lockTime, 0, fee, p.refunding.tail, None)
  }

  /** Closing succeeds exactly when the round is full or past its close score, and the funding covers the fee. */
  lemma CloseExactly(h: Hashes, p: Profile, x: Snapshot, s: Ledger, op: Operation, fee: int, external: int)
    requires Verified(h, p, x, s) && s.phase == OPEN && op.action == CLOSE
    ensures var r := TransitionOf(h, p, x, op, fee, external);
            && (r.Ok? <==> GoodFunds(op, fee, external) && fee <= external
                           && (Full(s) || x.currentDaa >= s.config.closeEligibleDaa))
            && (r.Ok? ==> r.value == CloseTransition(p, s, op.actorKey, fee, external))
  {
    hide VerifySnapshot, Verified, TransitionOf, Plan, ValidLedger, Decodable, Finished, CloseTransition, Full;
    OfferedPlans(h, p, x, s, op, fee, external);
    if GoodFunds(op, fee, external) && Offered(x, s, op.action) {
      ClosePlanned(h, p, x, s, op, fee, external);
    }
  }

  lemma ClosePlanned(h: Hashes, p: Profile, x: Snapshot, s: Ledger, op: Operation, fee: int, external: int)
    requires ValidLedger(s) && Decodable(s) && x.tip.index >= 0 && s.phase == OPEN && op.action == CLOSE
    requires GoodFunds(op, fee, external)
    ensures var r := Finished(Plan(h, p, x, s, op, fee, external), op, s, external);
            && (r.Ok? <==> fee <= external)
            && (r.Ok? ==> r.value == CloseTransition(p, s, op.actorKey, fee, external))
  {
    hide ValidLedger, ValidateLedger, Change, P2pk, ChangeTo, Full;
    OpenLimit(s);
    FullMeans(s);
    ChangeSize(op.actorKey, external - fee);
    var t := ClosePlan(p, s, fee).value;
    ChangeIs(op, t, external);
    if s.sold > 0 {
      ClosedValid(s);
      ValidateIsValid(Closed(s));
      assert t.payments + ChangeTo(op.actorKey, external - fee) == ChangeTo(op.actorKey, external - fee);
    } else {
      NeverBelow(s);
    }
  }

  lemma NeverBelow(s: Ledger)
    requires ValidLedger(s)
    ensures 0 <= s.sold
  {
  }

  // ---------------------------------------------------------------- TIMEOUT_REFUND

  /** Timing out succeeds exactly when the SEALED output is old enough, is not too near the DAA limit, and the funding
      covers the fee. */
  lemma TimeoutExactly(h: Hashes, p: Profile, x: Snapshot, s: Ledger, op: Operation, fee: int, external: int)
    requires Verified(h, p, x, s) && s.phase == SEALED && op.action == TIMEOUT_REFUND
    ensures var r := TransitionOf(h, p, x, op, fee, external);
            && (r.Ok? <==> GoodFunds(op, fee, external) && fee <= external
                           && x.utxoDaa < 499_999_568_000 && x.currentDaa >= x.utxoDaa + 432_000)
            && (r.Ok? ==> r.value == Transition(Some(s.(phase := REFUNDING)), None, ChangeTo(op.actorKey, external - fee), [], 0,
                                                432_000, fee, p.refunding.tail, None))
  {
    hide VerifySnapshot, Verified, TransitionOf, Plan, ValidLedger, Decodable, Finished, ChangeTo;
    VerifiedFacts(h, p, x, s);
    OfferedPlans(h, p, x, s, op, fee, external);
    if GoodFunds(op, fee, external) && Offered(x, s, op.action) && x.utxoDaa < 499_999_568_000 {
      TimeoutPlanned(h, p, x, s, op, fee, external);
    }
  }

  lemma TimeoutPlanned(h: Hashes, p: Profile, x: Snapshot, s: Ledger, op: Operation, fee: int, external: int)
    requires ValidLedger(s) && Decodable(s) && x.tip.index >= 0 && s.phase == SEALED && op.action == TIMEOUT_REFUND
    requires GoodFunds(op, fee, external) && 0 <= x.utxoDaa < 499_999_568_000
    requires x.currentDaa >= x.utxoDaa + 432_000
    ensures var r := Finished(Plan(h, p, x, s, op, fee, external), op, s, external);
            && (r.Ok? <==> fee <= external)
            && (r.Ok? ==> r.value == Transition(Some(s.(phase := REFUNDING)), None, ChangeTo(op.actorKey, external - fee), [], 0,
                                                432_000, fee, p.refunding.tail, None))
  {
    hide ValidLedger, ValidateLedger, Change, P2pk, ChangeTo;
    SealedLimit(s);
    ChangeSize(op.actorKey, external - fee);
    var t := TimeoutPlan(p, x, s, fee).value;
    ChangeIs(op, t, external);
    TimedOutValid(s);
    ValidateIsValid(s.(phase := REFUNDING));
    assert t.payments + ChangeTo(op.actorKey, external - fee) == ChangeTo(op.actorKey, external - fee);
  }

  lemma SealedLimit(s: Ledger)
    requires s.phase == SEALED
    ensures OutputLimit(PhaseModule(s.phase)) == 3
  {
  }

  // ---------------------------------------------------------------- REFUND

  /** Records of the next batch: the 32 after the cursor, or what is left. */
  function Next(s: Ledger): int {
    if s.purchaseCount - s.cursor <= 32 then s.purchaseCount - s.cursor else 32
  }

  predicate Ends(s: Ledger) {
    s.purchaseCount - s.cursor <= 32
  }

  /** The refund of record `i`: the price of its tickets less one fee, to its key. */
  function RefundOf(s: Ledger, i: nat): Payment
    requires HasRecords(s.directory, i + 1)
  {
    Payment((EndAt(s.directory, i) - StartAt(s.directory, i)) * s.config.ticketPrice - 2_000_000, P2pk(KeyAt(s.directory, i)),
            BUYER_REFUND)
  }

  /** What the executor takes: one fee for each refund, one more with the deposit, and its own funding, less the network fee. */
  function Executor(s: Ledger, fee: int, external: int): int {
    external + (if Ends(s) then Next(s) + 1 else Next(s)) * 2_000_000 - fee
  }

  /** The refunds of the `n` records from the cursor on, in order. */
  function RefundList(s: Ledger, n: nat): (ps: seq<Payment>)
    requires 0 <= s.cursor && HasRecords(s.directory, s.cursor + n)
    ensures |ps| == n && forall i | 0 <= i < n :: ps[i] == RefundOf(s, s.cursor + i)
  {
    seq(n, i requires 0 <= i < n => RefundOf(s, s.cursor + i))
  }

  function RefundTransition(s: Ledger, key: Bytes, fee: int, external: int): Transition
    requires ValidLedger(s) && s.phase == REFUNDING
  {
    var pool := (if Ends(s) then Next(s) + 1 else Next(s)) * 2_000_000;
    Transition(if Ends(s) then None else Some(s.(cursor := s.cursor + 32)), if Ends(s) then Some(Sil.REFUNDED) else None,
               RefundList(s, Next(s))
               + (if Ends(s) then [Payment(398_000_000, P2pk(s.ownerKey), CREATOR)] else [])
               + [Payment(Executor(s, fee, external), P2pk(key), EXECUTOR)],
               [], 0, 0, if fee >= pool then fee - pool + 1 else 0, [], None)
  }

  lemma BatchIs(s: Ledger)
    requires ValidLedger(s) && s.phase == REFUNDING
    ensures BatchSize(s) == Next(s) && IsLast(s) == Ends(s) && Pool(s) == (if Ends(s) then Next(s) + 1 else Next(s)) * 2_000_000
    ensures 0 < Next(s) <= 32 && 0 <= s.cursor && s.cursor + Next(s) <= s.purchaseCount && HasRecords(s.directory, s.purchaseCount)
  {
    hide Ascending, StartAt, ValidConfig;
  }

  lemma RefundListNext(s: Ledger, n: nat)
    requires n > 0 && 0 <= s.cursor && HasRecords(s.directory, s.cursor + n)
    ensures RefundList(s, n) == RefundList(s, n - 1) + [RefundOf(s, s.cursor + n - 1)]
  {
    hide RefundOf, RefundList;
  }

  lemma NoRefunds(s: Ledger)
    requires 0 <= s.cursor && HasRecords(s.directory, s.cursor)
    ensures RefundList(s, 0) == []
  {
  }

  lemma {:induction false} RefundsPayable(s: Ledger, n: nat)
    requires ValidLedger(s) && s.phase == REFUNDING && 0 <= s.cursor && s.cursor + n <= s.purchaseCount
    ensures HasRecords(s.directory, s.purchaseCount)
    ensures RefundPayments(RecordList(s.directory, s.purchaseCount), s.config.ticketPrice, s.cursor, n) == Ok(RefundList(s, n))
  {
    hide ValidLedger, PayChecked, RecordAt, RefundOf, RefundList;
    ValidParts(s);
    if n == 0 {
      NoRefunds(s);
    } else {
      RefundsPayable(s, n - 1);
      RefundListNext(s, n);
      RefundPayable(s, s.cursor + n - 1);
    }
  }

  lemma RefundPayable(s: Ledger, i: nat)
    requires ValidLedger(s) && i < s.purchaseCount
    ensures HasRecords(s.directory, s.purchaseCount)
    ensures var q := RecordAt(s.directory, i);
            PayChecked(Cost(q.count, s.config.ticketPrice) - 2_000_000, q.key, BUYER_REFUND) == Ok(RefundOf(s, i))
  {
    hide ValidLedger, StartAt, EndAt, KeyAt, P2pk;
    ValidParts(s);
    CountBound(s, i);
  }

  lemma RefundPlanIs(s: Ledger, op: Operation, fee: int, external: int)
    requires ValidLedger(s) && s.phase == REFUNDING
    ensures var r := RefundPlan(s, op, fee, external);
            && (r.Ok? <==> 0 < Executor(s, fee, external) <= 9_000_000_000_000_000)
            && (r.Ok? ==> r.value == RefundTransition(s, op.actorKey, fee, external))
  {
    hide ValidLedger, P2pk, StartAt, EndAt, CountAt, KeyAt, RefundPayments, Records, RefundOf, RefundList;
    BatchIs(s);
    ValidRecords(s);
    RefundsPayable(s, Next(s));
  }

  /** A refund succeeds exactly when the executor's share is positive and within the value limit. */
  lemma RefundExactly(h: Hashes, p: Profile, x: Snapshot, s: Ledger, op: Operation, fee: int, external: int)
    requires Verified(h, p, x, s) && s.phase == REFUNDING && op.action == REFUND
    ensures ValidLedger(s)
    ensures var r := TransitionOf(h, p, x, op, fee, external);
            && (r.Ok? <==> GoodFunds(op, fee, external) && 0 < Executor(s, fee, external) <= 9_000_000_000_000_000)
            && (r.Ok? ==> r.value == RefundTransition(s, op.actorKey, fee, external))
  {
    hide VerifySnapshot, Verified, TransitionOf, Plan, ValidLedger, Decodable, Finished, RefundTransition, Executor;
    OfferedPlans(h, p, x, s, op, fee, external);
    if GoodFunds(op, fee, external) {
      RefundPlanned(h, p, x, s, op, fee, external);
    }
  }

  lemma RefundPlanned(h: Hashes, p: Profile, x: Snapshot, s: Ledger, op: Operation, fee: int, external: int)
    requires ValidLedger(s) && Decodable(s) && x.tip.index >= 0 && s.phase == REFUNDING && op.action == REFUND
    ensures var r := Finished(Plan(h, p, x, s, op, fee, external), op, s, external);
            && (r.Ok? <==> 0 < Executor(s, fee, external) <= 9_000_000_000_000_000)
            && (r.Ok? ==> r.value == RefundTransition(s, op.actorKey, fee, external))
  {
    hide ValidLedger, ValidateLedger, RefundPlan, P2pk, RefundOf, Executor, Next, Ends;
    RefundPlanIs(s, op, fee, external);
    BatchIs(s);
    RefundingLimit(s);
    if !IsLast(s) {
      AdvancedValid(s);
      ValidateIsValid(s.(cursor := s.cursor + BatchSize(s)));
      NextOfMore(s);
    }
    var t := RefundTransition(s, op.actorKey, fee, external);
    assert t.payments + [] == t.payments;
  }

  lemma NextOfMore(s: Ledger)
    requires !Ends(s)
    ensures Next(s) == 32
  {
  }

  lemma RefundingLimit(s: Ledger)
    requires s.phase == REFUNDING
    ensures OutputLimit(PhaseModule(s.phase)) == 34
  {
  }

  // ---------------------------------------------------------------- DRAW_AND_PAY

  /** What an opening must show, byte by byte: six numbers below 2^63, the target the first chain block at or after the boundary
      and its parent the last before, and the block and commitment that the node reported. */
  predicate OpeningHolds(h: Hashes, x: Snapshot, proof: Bytes, accessor: Accessor) {
    && |proof| == 240
    && x.utxoDaa < 499_999_568_000 && x.utxoDaa + 100 <= x.currentDaa
    && FromLe(proof[96..104]) < 0x8000_0000_0000_0000 && FromLe(proof[104..112]) < 0x8000_0000_0000_0000
    && FromLe(proof[112..120]) < 0x8000_0000_0000_0000 && FromLe(proof[216..224]) < 0x8000_0000_0000_0000
    && FromLe(proof[224..232]) < 0x8000_0000_0000_0000 && FromLe(proof[232..240]) < 0x8000_0000_0000_0000
    && FromLe(proof[224..232]) < x.utxoDaa + 100 <= FromLe(proof[104..112]) < 500_000_000_000
    && FromLe(proof[232..240]) < FromLe(proof[112..120])
    && proof[..32] == accessor.blockHash && TargetSeq(h, proof) == accessor.sequenceCommitment
  }

  /** The seed of the draw on a verified snapshot. */
  function SeedOn(h: Hashes, x: Snapshot, s: Ledger, proof: Bytes): Digest
    requires ValidLedger(s) && |proof| == 240 && x.tip.index >= 0 && 0 <= x.utxoDaa
  {
    hide LedgerBytes, ValidLedger, Seed;
    ValidIsDecodable(s);
    Seed(h, x.covenantId, x.tip, LedgerBytes(s), x.utxoDaa + 100, proof)
  }

  function Prize(s: Ledger, fee: int): int {
    s.sold * s.config.ticketPrice - 100_000_000 - fee
  }

  /** The payout to record `i`. */
  function DrawTransition(h: Hashes, x: Snapshot, s: Ledger, proof: Bytes, key: Bytes, fee: int, i: nat): Transition
    requires ValidLedger(s) && |proof| == 240 && x.tip.index >= 0 && 0 <= x.utxoDaa && HasRecords(s.directory, i + 1)
  {
    hide LedgerBytes, ValidLedger, SeedOn, TargetSeq;
    Transition(None, Some(Sil.PAID),
               [Payment(Prize(s, fee), P2pk(KeyAt(s.directory, i)), WINNER), Payment(400_000_000, P2pk(s.ownerKey), CREATOR),
                Payment(100_000_000, P2pk(key), EXECUTOR)],
               proof + Le(i, 4), 0, 100, 0, [],
               Some(Draw(SeedOn(h, x, s, proof), x.utxoDaa + 100, x.utxoDaa, x.tip, proof[..32], TargetSeq(h, proof))))
  }

  /** What a draw needs besides good funds. */
  predicate DrawGuard(h: Hashes, x: Snapshot, s: Ledger, op: Operation, fee: int, external: int)
    requires ValidLedger(s) && x.tip.index >= 0 && 0 <= x.utxoDaa && s.sold > 0
  {
    hide LedgerBytes, ValidLedger, SeedOn, SampleValue, OpeningHolds;
    && external == 0 && op.opening.Some? && op.accessor.Some?
    && OpeningHolds(h, x, op.opening.value, op.accessor.value)
    && |op.opening.value| == 240
    && SampleValue(h, SeedOn(h, x, s, op.opening.value)) < 0x100_0000_0000_0000 - 0x100_0000_0000_0000 % s.sold
    && Prize(s, fee) >= 100_000_000
  }

  lemma NoOpening(h: Hashes, x: Snapshot, s: Ledger, op: Operation, fee: int, external: int)
    requires ValidLedger(s) && x.tip.index >= 0 && 0 <= x.utxoDaa && s.sold > 0 && s.phase == SEALED && op.action == DRAW_AND_PAY
    requires DrawGuard(h, x, s, op, fee, external)
    ensures Offered(x, s, op.action) && x.utxoDaa < 499_999_568_000
  {
    hide LedgerBytes, ValidLedger, SeedOn, SampleValue, TargetSeq;
  }

  lemma AuthenticatesExactly(h: Hashes, x: Snapshot, s: Ledger, proof: Bytes, accessor: Accessor)
    requires ValidLedger(s) && Decodable(s) && s.phase == SEALED && x.tip.index >= 0 && 0 <= x.utxoDaa
    ensures var r := AuthenticateDraw(h, x, s, proof, accessor);
            && (r.Ok? <==> OpeningHolds(h, x, proof, accessor))
            && (r.Ok? ==> |proof| == 240
                          && r.value == Draw(SeedOn(h, x, s, proof), x.utxoDaa + 100, x.utxoDaa, x.tip, proof[..32],
                                             TargetSeq(h, proof)))
  {
    hide LedgerBytes, ValidLedger, Decodable, Seed, TargetSeq, FromLe;
    LedgerLength(s);
  }

  lemma LedgerLength(s: Ledger)
    requires Decodable(s)
    ensures |LedgerBytes(s)| >= HEADER_BYTES
  {
    hide LedgerBytes;
  }

  lemma WinnerExactly(h: Hashes, x: Snapshot, s: Ledger, proof: Bytes, accessor: Accessor) returns (i: nat)
    requires ValidLedger(s) && Decodable(s) && s.phase == SEALED && s.sold > 0 && x.tip.index >= 0 && 0 <= x.utxoDaa
    ensures HasRecords(s.directory, s.purchaseCount)
    ensures var r := DrawWinner(h, x, s, proof, accessor);
            && (r.Ok? <==> && OpeningHolds(h, x, proof, accessor) && |proof| == 240
                           && SampleValue(h, SeedOn(h, x, s, proof)) < 0x100_0000_0000_0000 - 0x100_0000_0000_0000 % s.sold)
            && (r.Ok? ==>
                  && i < s.purchaseCount && r.value.record == i
                  && StartAt(s.directory, i) <= SampleValue(h, SeedOn(h, x, s, proof)) % s.sold < EndAt(s.directory, i)
                  && r.value.ticket == SampleValue(h, SeedOn(h, x, s, proof)) % s.sold
                  && r.value.draw == Draw(SeedOn(h, x, s, proof), x.utxoDaa + 100, x.utxoDaa, x.tip, proof[..32],
                                          TargetSeq(h, proof)))
  {
    hide LedgerBytes, ValidLedger, Decodable, SeedOn, TargetSeq, OpeningHolds, AuthenticateDraw, SampleValue, RecordOfTicket,
      StartAt, EndAt;
    AuthenticatesExactly(h, x, s, proof, accessor);
    SoldRange(s);
    i := 0;
    if OpeningHolds(h, x, proof, accessor) && |proof| == 240 {
      var ticket := SampleValue(h, SeedOn(h, x, s, proof)) % s.sold;
      WinnerExists(s, ticket);
      i := RecordOfTicket(s, ticket).value;
      WinnerUnique(s, ticket, i);
    }
  }

  lemma SoldRange(s: Ledger)
    requires ValidLedger(s) && s.phase == SEALED
    ensures 3 <= s.sold <= 100_000 && s.purchaseCount <= 256 && |s.directory| == RECORD_BYTES * s.purchaseCount
  {
    hide Ascending, StartAt;
  }

  lemma DrawPlanned(h: Hashes, p: Profile, x: Snapshot, s: Ledger, op: Operation, fee: int, external: int) returns (i: nat)
    requires ValidLedger(s) && Decodable(s) && x.tip.index >= 0 && 0 <= x.utxoDaa && s.phase == SEALED && s.sold > 0
    requires op.action == DRAW_AND_PAY && GoodFunds(op, fee, external)
    ensures var r := Finished(Plan(h, p, x, s, op, fee, external), op, s, external);
            && (r.Ok? <==> DrawGuard(h, x, s, op, fee, external))
            && (r.Ok? ==>
                  && i < s.purchaseCount && HasRecords(s.directory, s.purchaseCount)
                  && |op.opening.value| == 240
                  && StartAt(s.directory, i) <= SampleValue(h, SeedOn(h, x, s, op.opening.value)) % s.sold < EndAt(s.directory, i)
                  && r.value == DrawTransition(h, x, s, op.opening.value, op.actorKey, fee, i))
  {
    hide LedgerBytes, ValidLedger, Decodable, SeedOn, TargetSeq, OpeningHolds, DrawWinner, SampleValue, P2pk, StartAt, EndAt,
      KeyAt, Records, RecordOfTicket;
    i := 0;
    SealedLimit(s);
    SoldRange(s);
    ValidRecords(s);
    if op.opening.Some? && op.accessor.Some? {
      i := WinnerExactly(h, x, s, op.opening.value, op.accessor.value);
      PrizePayable(s, fee);
      if i < s.purchaseCount {
        RecordWritten(i);
        assert RecordList(s.directory, s.purchaseCount)[i] == RecordAt(s.directory, i);
      }
      var t := DrawPlan(h, x, s, op, fee, external);
      if t.Ok? {
        assert t.value.payments + [] == t.value.payments;
      }
    }
  }

  lemma PrizePayable(s: Ledger, fee: int)
    requires ValidLedger(s) && s.phase == SEALED && 0 < fee
    ensures Prize(s, fee) <= 9_000_000_000_000_000 && Prize(s, fee) == Cost(s.sold, s.config.ticketPrice) - 100_000_000 - fee
  {
    hide Ascending, StartAt;
    PriceBound(s.sold, s.config.ticketPrice, s.config.ticketCap);
  }

  lemma RecordWritten(i: nat)
    requires i < 256
    ensures LeChecked(i, 4) == Ok(Le(i, 4))
  {
    Pow256Values();
  }

  /** A draw succeeds exactly on an opening that holds, without external value, when the sample is not rejected and leaves a
      prize; it pays the one record whose window holds the ticket, the creator and the executor, and ends the round. */
  lemma DrawExactly(h: Hashes, p: Profile, x: Snapshot, s: Ledger, op: Operation, fee: int, external: int) returns (i: nat)
    requires Verified(h, p, x, s) && s.phase == SEALED && op.action == DRAW_AND_PAY
    ensures ValidLedger(s) && s.sold > 0
    ensures var r := TransitionOf(h, p, x, op, fee, external);
            && (r.Ok? <==> GoodFunds(op, fee, external) && DrawGuard(h, x, s, op, fee, external))
            && (r.Ok? ==>
                  && i < s.purchaseCount && HasRecords(s.directory, s.purchaseCount)
                  && StartAt(s.directory, i) <= SampleValue(h, SeedOn(h, x, s, op.opening.value)) % s.sold < EndAt(s.directory, i)
                  && r.value == DrawTransition(h, x, s, op.opening.value, op.actorKey, fee, i))
  {
    hide VerifySnapshot, Verified, TransitionOf, Plan, ValidLedger, Decodable, Finished, DrawTransition, DrawGuard, DrawPlan;
    VerifiedFacts(h, p, x, s);
    OfferedPlans(h, p, x, s, op, fee, external);
    Spends.SealedSold(s);
    i := 0;
    if GoodFunds(op, fee, external) && Offered(x, s, op.action) && x.utxoDaa < 499_999_568_000 {
      i := DrawPlanned(h, p, x, s, op, fee, external);
    } else if DrawGuard(h, x, s, op, fee, external) {
      NoOpening(h, x, s, op, fee, external);
    }
  }
}
