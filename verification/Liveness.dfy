/** Progress of a round: when transitions exist, that they end, and how views of a round compare
    (scripts/core/src/protocol.ts:43-89, scripts/round/progress.mjs). */
module Liveness {
  import opened Results
  import opened Bytes
  import opened Layout
  import opened State
  import opened Directory
  import opened Scripts
  import opened Tx
  import opened Frames
  import opened Protocol
  import opened ContractSteps
  import opened Transitions
  import Sil
  import Accepted
  import BuilderReader
  import Lineage

  // ---------------------------------------------------------------- the one state that is stuck

  /** A SEALED output accepted within the timeout delay of the DAA limit can never be moved, whatever the action. */
  lemma LateSealedIsStuck(h: Hashes, p: Profile, x: Snapshot, s: Ledger, op: Operation, fee: int, external: int)
    requires VerifySnapshot(h, p, x) == Ok(s) && s.phase == SEALED && x.utxoDaa >= DAA_LIMIT - TIMEOUT_DELAY
    ensures TransitionOf(h, p, x, op, fee, external).Err?
  {
    hide VerifySnapshot, Plan, ValidateLedger, Change;
  }

  /** A SEALED output can be moved at some score, by some action, exactly when it was accepted more than the timeout delay
      before the DAA limit. */
  lemma SealedMovesIff(h: Hashes, p: Profile, x: Snapshot, s: Ledger)
    requires Verified(h, p, x, s) && s.phase == SEALED
    ensures x.utxoDaa < DAA_LIMIT - TIMEOUT_DELAY
       <==> exists daa: int, op: Operation, fee: int, external: int ::
              TransitionOf(h, p, x.(currentDaa := daa), op, fee, external).Ok?
  {
    hide VerifySnapshot, TransitionOf, Verified;
    if x.utxoDaa < DAA_LIMIT - TIMEOUT_DELAY {
      var daa := x.utxoDaa + TIMEOUT_DELAY;
      VerifiedFacts(h, p, x, s);
      VerifiedLater(h, p, x, s, daa);
      var op := Operation(TIMEOUT_REFUND, Zeros(32), None, None, None);
      TimeoutExactly(h, p, x.(currentDaa := daa), s, op, 1, 1);
      assert TransitionOf(h, p, x.(currentDaa := daa), op, 1, 1).Ok?;
    } else {
      forall daa: int, op: Operation, fee: int, external: int
        ensures TransitionOf(h, p, x.(currentDaa := daa), op, fee, external).Err?
      {
        StuckLater(h, p, x, s, daa, op, fee, external);
      }
    }
  }

  lemma VerifiedLater(h: Hashes, p: Profile, x: Snapshot, s: Ledger, daa: int)
    requires Verified(h, p, x, s) && 0 <= daa < DAA_LIMIT
    ensures Verified(h, p, x.(currentDaa := daa), s)
  {
    hide ValidLedger, LedgerBytes, RootPreimage, ValueOf, ScriptOf, RootScript, P2sh;
  }

  lemma StuckLater(h: Hashes, p: Profile, x: Snapshot, s: Ledger, daa: int, op: Operation, fee: int, external: int)
    requires Verified(h, p, x, s) && s.phase == SEALED && x.utxoDaa >= DAA_LIMIT - TIMEOUT_DELAY
    ensures TransitionOf(h, p, x.(currentDaa := daa), op, fee, external).Err?
  {
    hide VerifySnapshot, Verified, AvailableActions, Plan, Change;
    var y := x.(currentDaa := daa);
    if 0 <= daa < DAA_LIMIT {
      VerifiedLater(h, p, x, s, daa);
      VerifiedFacts(h, p, y, s);
      LateSealedIsStuck(h, p, y, s, op, fee, external);
    } else {
      NoSuchScore(h, p, y);
    }
  }

  lemma NoSuchScore(h: Hashes, p: Profile, x: Snapshot)
    requires !(0 <= x.currentDaa < DAA_LIMIT)
    ensures VerifySnapshot(h, p, x).Err?
  {
    hide DecodeLedger, ValidateLedger, RootId;
  }

  // ---------------------------------------------------------------- draining a round without a draw

  function CeilDiv(n: int, d: int): int
    requires d > 0
  {
    (n + d - 1) / d
  }

  /** Spends left when no draw is made. */
  function StepsLeft(s: Ledger): int {
    if s.phase == OPEN then 2 + CeilDiv(s.purchaseCount, MAX_REFUND_RECORDS)
    else if s.phase == SEALED then 1 + CeilDiv(s.purchaseCount, MAX_REFUND_RECORDS)
    else CeilDiv(s.purchaseCount - s.cursor, MAX_REFUND_RECORDS)
  }

  /** The action that moves a round on without a draw. */
  function Drawless(s: Ledger, key: Bytes): Operation {
    Operation(if s.phase == OPEN then CLOSE else if s.phase == SEALED then TIMEOUT_REFUND else REFUND, key, None, None, None)
  }

  /** The score from which it is available. */
  function DueAt(x: Snapshot, s: Ledger): int {
    if s.phase == OPEN then (if Full(s) then 0 else s.config.closeEligibleDaa)
    else if s.phase == SEALED then x.utxoDaa + TIMEOUT_DELAY
    else 0
  }

  predicate Anchored(x: Snapshot, s: Ledger) {
    s.phase == SEALED ==> x.utxoDaa < DAA_LIMIT - TIMEOUT_DELAY
  }

  /** Funding that covers any fee and keeps every payment within the value limit. */
  predicate Adequate(fee: int, external: int) {
    0 < fee <= MAX_PAY_FEE && fee <= external <= VALUE_LIMIT - 34 * REFUND_FEE
  }

  /** `y` is a snapshot of the successor that `t` planned on `x`. */
  predicate Follows(h: Hashes, p: Profile, x: Snapshot, t: Transition, y: Snapshot) {
    && t.next.Some? && VerifySnapshot(h, p, y) == Ok(t.next.value)
    && y.covenantId == x.covenantId && y.origin == x.origin
    && x.currentDaa <= y.utxoDaa <= y.currentDaa
  }

  /** From its due score on, and with any adequate funding, the drawless action succeeds; it ends the round, or from every
      snapshot of its successor the round drains in `n - 1` further steps. */
  ghost predicate Drains(h: Hashes, p: Profile, x: Snapshot, s: Ledger, key: Bytes, n: nat)
    decreases n
  {
    hide TransitionOf, VerifySnapshot, DueAt, Drawless, Adequate, Anchored;
    && n > 0
    && DueAt(x, s) < DAA_LIMIT
    && forall daa: int, fee: int, external: int |
         x.currentDaa <= daa < DAA_LIMIT && DueAt(x, s) <= daa && Adequate(fee, external) ::
         var r := TransitionOf(h, p, x.(currentDaa := daa), Drawless(s, key), fee, external);
         && r.Ok?
         && (r.value.terminal.Some? ||
             (r.value.next.Some?
              && forall y | Follows(h, p, x.(currentDaa := daa), r.value, y) && Anchored(y, r.value.next.value) ::
                   Drains(h, p, y, r.value.next.value, key, n - 1)))
  }

  lemma StepDrawless(h: Hashes, p: Profile, x: Snapshot, s: Ledger, key: Bytes, fee: int, external: int)
    requires Verified(h, p, x, s) && Anchored(x, s) && |key| == KEY_BYTES
    requires DueAt(x, s) <= x.currentDaa && Adequate(fee, external)
    ensures var r := TransitionOf(h, p, x, Drawless(s, key), fee, external);
            && r.Ok?
            && (r.value.terminal == None ==>
                  && r.value.next.Some?
                  && 0 < StepsLeft(r.value.next.value) < StepsLeft(s))
  {
    hide VerifySnapshot, Verified, TransitionOf, P2pk, FrameOf, ValidConfig, Ascending, StartAt, EndAt;
    VerifiedFacts(h, p, x, s);
    var op := Drawless(s, key);
    if s.phase == OPEN {
      CloseExactly(h, p, x, s, op, fee, external);
    } else if s.phase == SEALED {
      TimeoutExactly(h, p, x, s, op, fee, external);
      TimedOutValid(s);
      StepsPositive(s.(phase := REFUNDING));
    } else {
      RefundExactly(h, p, x, s, op, fee, external);
    }
  }

  lemma StepsPositive(s: Ledger)
    requires ValidLedger(s)
    ensures 0 < StepsLeft(s) <= 2 + CeilDiv(s.purchaseCount, MAX_REFUND_RECORDS) <= 10
  {
    hide Ascending, StartAt, EndAt;
  }

  lemma DueBefore(x: Snapshot, s: Ledger)
    requires ValidLedger(s) && Anchored(x, s)
    ensures DueAt(x, s) < DAA_LIMIT
  {
    hide Ascending, StartAt, EndAt;
  }

  /** No round gets stuck, but for a SEALED output too near the DAA limit: without any draw, and however late each spend is
      planned and accepted, it ends within `StepsLeft(s)` spends, at most 2 + ⌈purchaseCount / 32⌉. */
  lemma {:induction false} RoundDrains(h: Hashes, p: Profile, x: Snapshot, s: Ledger, key: Bytes, n: nat)
    requires Verified(h, p, x, s) && Anchored(x, s) && |key| == KEY_BYTES && StepsLeft(s) <= n
    ensures 0 < StepsLeft(s) <= 2 + CeilDiv(s.purchaseCount, MAX_REFUND_RECORDS)
    ensures Drains(h, p, x, s, key, n)
    decreases n
  {
    hide VerifySnapshot, Verified, TransitionOf, StepsLeft, DueAt, Drawless, Anchored, ValidLedger;
    VerifiedFacts(h, p, x, s);
    StepsPositive(s);
    DueBefore(x, s);
    forall daa: int, fee: int, external: int |
      x.currentDaa <= daa < DAA_LIMIT && DueAt(x, s) <= daa && Adequate(fee, external)
      ensures var r := TransitionOf(h, p, x.(currentDaa := daa), Drawless(s, key), fee, external);
              && r.Ok?
              && (r.value.terminal.Some? ||
                  (r.value.next.Some?
                   && forall y | Follows(h, p, x.(currentDaa := daa), r.value, y) && Anchored(y, r.value.next.value) ::
                        Drains(h, p, y, r.value.next.value, key, n - 1)))
    {
      var x' := x.(currentDaa := daa);
      VerifiedLater(h, p, x, s, daa);
      SameDue(x, s, daa);
      StepDrawless(h, p, x', s, key, fee, external);
      var t := TransitionOf(h, p, x', Drawless(s, key), fee, external).value;
      if t.terminal == None {
        forall y | Follows(h, p, x', t, y) && Anchored(y, t.next.value)
          ensures Drains(h, p, y, t.next.value, key, n - 1)
        {
          VerifyIsVerified(h, p, y, t.next.value);
          RoundDrains(h, p, y, t.next.value, key, n - 1);
        }
      }
    }
  }

  lemma SameDue(x: Snapshot, s: Ledger, daa: int)
    ensures DueAt(x.(currentDaa := daa), s) == DueAt(x, s)
    ensures Anchored(x.(currentDaa := daa), s) <==> Anchored(x, s)
  {
  }

  /** A planned successor always has a snapshot, so the promise above is not empty. */
  lemma SuccessorHasSnapshot(h: Hashes, p: Profile, x: Snapshot, s: Ledger, next: Ledger, txId: Bytes, utxoDaa: int,
                             currentDaa: int)
    requires Verified(h, p, x, s) && ValidLedger(next) && Decodable(next)
    requires next.ownerKey == s.ownerKey && next.config == s.config && |txId| == 32
    requires 0 <= utxoDaa <= currentDaa < DAA_LIMIT
    ensures VerifySnapshot(h, p, Snapshot(LedgerBytes(next), Outpoint(txId, 0), P2sh(h.blake2b(ScriptOf(next, p))),
                                          x.covenantId, ValueOf(next), utxoDaa, currentDaa, x.origin)) == Ok(next)
  {
    hide VerifySnapshot, ValidLedger, LedgerBytes, RootPreimage, ValueOf, P2sh, LedgerScript;
    VerifyIsVerified(h, p, Snapshot(LedgerBytes(next), Outpoint(txId, 0), P2sh(h.blake2b(ScriptOf(next, p))),
                                    x.covenantId, ValueOf(next), utxoDaa, currentDaa, x.origin), next);
  }

  // ---------------------------------------------------------------- how a round gets stuck

  /** The snapshot of a live ledger at the last score there is. */
  function LateSnapshot(h: Hashes, p: Profile, s: Ledger): Snapshot
    requires ValidLedger(s) && Decodable(s)
  {
    var origin := Outpoint(Zeros(31) + [1], 0);
    Snapshot(LedgerBytes(s), Outpoint(Zeros(32), 0), P2sh(h.blake2b(ScriptOf(s, p))),
             h.covenantId(RootPreimage(h, origin, RootScript(s, p))), ValueOf(s), DAA_LIMIT - 1, DAA_LIMIT - 1, origin)
  }

  lemma LateVerified(h: Hashes, p: Profile, s: Ledger)
    requires ValidLedger(s) && Decodable(s)
    ensures Verified(h, p, LateSnapshot(h, p, s), s)
  {
    hide ValidLedger, LedgerBytes, RootPreimage, ValueOf, ScriptOf, RootScript, P2sh;
    var origin := Outpoint(Zeros(31) + [1], 0);
    assert origin.transactionId[31] != ZERO[31];
  }

  ghost predicate NeverMoves(h: Hashes, p: Profile, x: Snapshot) {
    hide TransitionOf;
    forall daa: int, op: Operation, fee: int, external: int ::
      TransitionOf(h, p, x.(currentDaa := daa), op, fee, external).Err?
  }

  /** The client can close `s` at the last score, and nothing ever moves the successor accepted at that score. */
  ghost predicate ClosesIntoStuck(h: Hashes, p: Profile, s: Ledger, next: Ledger)
    requires ValidLedger(s) && Decodable(s) && ValidLedger(next) && Decodable(next)
  {
    hide TransitionOf, ValidLedger, Decodable, NeverMoves, VerifySnapshot, LateSnapshot;
    var x, y := LateSnapshot(h, p, s), LateSnapshot(h, p, next);
    var r := TransitionOf(h, p, x, Operation(CLOSE, Zeros(32), None, None, None), 1, 1);
    r.Ok? && Follows(h, p, x, r.value, y) && NeverMoves(h, p, y)
  }

  /** Closing does lead into the stuck state: any full round with enough tickets that closes at the last score before the DAA
      limit leaves a SEALED output that no action ever moves. */
  lemma LateCloseSticks(h: Hashes, p: Profile, s: Ledger)
    requires ValidLedger(s) && s.phase == OPEN && Full(s) && s.sold >= s.config.minTickets
    ensures Decodable(s) && ValidLedger(Closed(s)) && Decodable(Closed(s)) && ClosesIntoStuck(h, p, s, Closed(s))
  {
    hide TransitionOf, VerifySnapshot, Decodable, Verified, LedgerBytes, RootPreimage, ValueOf, ScriptOf, P2sh, ValidLedger;
    ClosesSealed(s);
    var t := Closed(s);
    var x, y := LateSnapshot(h, p, s), LateSnapshot(h, p, t);
    LateVerified(h, p, s);
    LateVerified(h, p, t);
    CloseExactly(h, p, x, s, Operation(CLOSE, Zeros(32), None, None, None), 1, 1);
    VerifyIsVerified(h, p, y, t);
    forall daa: int, act: Operation, fee: int, external: int
      ensures TransitionOf(h, p, y.(currentDaa := daa), act, fee, external).Err?
    {
      StuckLater(h, p, y, t, daa, act, fee, external);
    }
  }

  lemma ClosesSealed(s: Ledger)
    requires ValidLedger(s) && s.phase == OPEN && s.sold >= s.config.minTickets
    ensures s.sold > 0 && ValidLedger(Closed(s)) && Decodable(Closed(s)) && Decodable(s) && Closed(s).phase == SEALED
  {
    hide Decodable;
    ClosedValid(s);
    ValidIsDecodable(s);
    ValidIsDecodable(Closed(s));
  }

  /** There are such rounds: three tickets at the least price, all bought at once. */
  lemma SoldOutRound(buyer: Bytes)
    requires |buyer| == KEY_BYTES
    ensures var s := Bought(NewOpen(Zeros(32), Config(MIN_PRICE, 3, 1, 3, 1)), 3, buyer);
            ValidLedger(s) && s.phase == OPEN && Full(s) && s.sold >= s.config.minTickets
  {
    hide ValidLedger;
    var c := Config(MIN_PRICE, 3, 1, 3, 1);
    Lineage.NewOpenValid(Zeros(32), c);
    PurchaseKeepsValid(NewOpen(Zeros(32), c), 3, buyer);
  }

  // ---------------------------------------------------------------- every transition makes progress

  /** The steps a round can still take, draws and purchases included. */
  function Rank(s: Ledger): int {
    if s.phase == OPEN then s.config.purchaseCap - s.purchaseCount + 2 + CeilDiv(MAX_PURCHASES, MAX_REFUND_RECORDS)
    else StepsLeft(s)
  }

  /** Any transition that goes on leaves strictly fewer steps, and every live ledger has at most 266. */
  lemma TransitionsEnd(h: Hashes, p: Profile, x: Snapshot, s: Ledger, op: Operation, fee: int, external: int)
    requires VerifySnapshot(h, p, x) == Ok(s) && ValidLedger(s) && TransitionOf(h, p, x, op, fee, external).Ok?
    ensures 0 < Rank(s) <= 266
    ensures var t := TransitionOf(h, p, x, op, fee, external).value;
            t.next.Some? ==> 0 < Rank(t.next.value) < Rank(s)
  {
    hide VerifySnapshot, TransitionOf, ValidLedger, Rank;
    RankPositive(s);
    var t := TransitionOf(h, p, x, op, fee, external).value;
    if t.next.Some? {
      var m := NextIsMove(h, p, x, s, op, fee, external);
      Lineage.MovedValid(s, m);
      RankPositive(t.next.value);
      MoveRank(s, m);
    }
  }

  lemma RankPositive(s: Ledger)
    requires ValidLedger(s)
    ensures 0 < Rank(s) <= 266
  {
    hide Ascending, StartAt, EndAt;
  }

  /** A transition's successor is a ledger move. */
  lemma NextIsMove(h: Hashes, p: Profile, x: Snapshot, s: Ledger, op: Operation, fee: int, external: int)
    returns (m: Lineage.Move)
    requires VerifySnapshot(h, p, x) == Ok(s) && ValidLedger(s) && TransitionOf(h, p, x, op, fee, external).Ok?
    requires TransitionOf(h, p, x, op, fee, external).value.next.Some?
    ensures Lineage.CanMove(s, m)
    ensures TransitionOf(h, p, x, op, fee, external).value.next == Some(Lineage.Moved(s, m))
  {
    hide VerifySnapshot, Plan, TransitionOf, ValidLedger, Change;
    VerifiedIndex(h, p, x, s);
    ValidParts(s);
    var planned, change := BuilderReader.TransitionParts(h, p, x, s, op, fee, external);
    m := PlanIsMove(h, p, x, s, op, fee, external, planned);
  }

  lemma PlanIsMove(h: Hashes, p: Profile, x: Snapshot, s: Ledger, op: Operation, fee: int, external: int, t: Transition)
    returns (m: Lineage.Move)
    requires ValidLedger(s) && Decodable(s) && x.tip.index >= 0
    requires Accepted.Allowed(PhaseModule(s.phase), op.action)
    requires Plan(h, p, x, s, op, fee, external) == Ok(t) && t.next.Some?
    ensures Lineage.CanMove(s, m) && t.next.value == Lineage.Moved(s, m)
  {
    hide ValidLedger, P2pk, FrameOf, DrawWinner, Records, RefundPlan, Cost, AppendPurchase, Decodable, BatchSize, IsLast;
    Lineage.PhaseOfValid(s);
    ValidParts(s);
    match op.action
    case BUY =>
      AppendIsBought(s, op.quantity.value, op.actorKey);
      m := Lineage.BuyMove(op.quantity.value, op.actorKey);
    case CLOSE => m := Lineage.CloseMove;
    case DRAW_AND_PAY => m := Lineage.CloseMove;
    case TIMEOUT_REFUND => m := Lineage.TimeoutMove;
    case REFUND =>
      RefundNext(s, op, fee, external);
      m := Lineage.RefundMove;
  }

  lemma RefundNext(s: Ledger, op: Operation, fee: int, external: int)
    requires ValidLedger(s) && s.phase == REFUNDING && RefundPlan(s, op, fee, external).Ok?
    ensures RefundPlan(s, op, fee, external).value.next
         == if IsLast(s) then None else Some(s.(cursor := s.cursor + BatchSize(s)))
  {
    hide ValidLedger, RefundPlan, P2pk, RefundList, Executor;
    RefundPlanIs(s, op, fee, external);
    BatchIs(s);
  }

  lemma MoveRank(s: Ledger, m: Lineage.Move)
    requires Lineage.CanMove(s, m)
    ensures Rank(Lineage.Moved(s, m)) < Rank(s)
  {
    hide Ascending, StartAt, EndAt;
  }

  // ---------------------------------------------------------------- whole runs end

  function LedgerOf(u: Lineage.Live): Ledger
    requires DecodeLedger(u.ledger).Ok?
  {
    DecodeLedger(u.ledger).value
  }

  /** The first `n` steps of a run have used up as much rank. */
  lemma {:induction false} RunDescends(h: Hashes, p: Profile, r: Lineage.Round, us: seq<Lineage.Live>, steps: seq<Lineage.Spent>,
                                       n: nat)
    requires Lineage.IsRun(h, p, r, us, steps) && TemplatesBind(h, p) && Lineage.GenesisLive(h, p, r, us[0]) && n <= |steps|
    ensures DecodeLedger(us[0].ledger).Ok? && DecodeLedger(us[n].ledger).Ok?
    ensures n + Rank(LedgerOf(us[n])) <= Rank(LedgerOf(us[0]))
  {
    hide DecodeLedger, Lineage.IsStep, Lineage.GenesisLive, TemplatesBind, Rank, Lineage.CanMove, Lineage.Holds;
    Lineage.RunHolds(h, p, r, us, steps, 0);
    if n > 0 {
      RunDescends(h, p, r, us, steps, n - 1);
      var m := Lineage.RunMoves(h, p, r, us, steps, n - 1);
      MoveRank(LedgerOf(us[n - 1]), m);
    }
  }

  /** A round of `purchaseCap` records sees fewer than `purchaseCap + 10` accepted spends that go on, whatever mix of purchases,
      close, timeout and refunds they are; so no round ever sees more than 266 spends, the last one included. */
  lemma RunsEnd(h: Hashes, p: Profile, r: Lineage.Round, us: seq<Lineage.Live>, steps: seq<Lineage.Spent>)
    requires Lineage.IsRun(h, p, r, us, steps) && TemplatesBind(h, p) && Lineage.GenesisLive(h, p, r, us[0])
    ensures |steps| < r.config.purchaseCap + 10 <= 266
  {
    hide DecodeLedger, Lineage.IsStep, Lineage.GenesisLive, TemplatesBind, Rank, ValidLedger, LedgerBytes, Lineage.Rooted;
    var n := |steps|;
    RunDescends(h, p, r, us, steps, n);
    Lineage.RunHolds(h, p, r, us, steps, n);
    RankPositive(LedgerOf(us[n]));
    Lineage.GenesisHolds(h, p, r, us[0]);
    DecodeOfEncode(Lineage.GenesisOf(r));
    GenesisRank(r);
  }

  lemma GenesisRank(r: Lineage.Round)
    requires ValidLedger(Lineage.GenesisOf(r))
    ensures Rank(Lineage.GenesisOf(r)) == r.config.purchaseCap + 10 <= 266
  {
  }

  /** What a client plans on one snapshot. */
  datatype Planned = Planned(op: Operation, fee: int, external: int)

  /** Each snapshot shows the planned successor of the one before. */
  ghost predicate Chained(h: Hashes, p: Profile, xs: seq<Snapshot>, plans: seq<Planned>) {
    && |xs| == |plans| + 1
    && forall i {:trigger plans[i]} | 0 <= i < |plans| :: PlannedOn(h, p, xs[i], plans[i], xs[i + 1])
  }

  ghost predicate PlannedOn(h: Hashes, p: Profile, x: Snapshot, a: Planned, y: Snapshot) {
    var r := TransitionOf(h, p, x, a.op, a.fee, a.external);
    r.Ok? && Follows(h, p, x, r.value, y)
  }

  lemma {:induction false} ChainDescends(h: Hashes, p: Profile, xs: seq<Snapshot>, plans: seq<Planned>, s: Ledger, n: nat)
    requires Chained(h, p, xs, plans) && VerifySnapshot(h, p, xs[0]) == Ok(s) && n <= |plans|
    ensures VerifySnapshot(h, p, xs[n]).Ok? && n + Rank(VerifySnapshot(h, p, xs[n]).value) <= Rank(s)
  {
    hide TransitionOf, VerifySnapshot, Rank, ValidLedger;
    if n > 0 {
      ChainDescends(h, p, xs, plans, s, n - 1);
      assert PlannedOn(h, p, xs[n - 1], plans[n - 1], xs[n]);
      var a, t := plans[n - 1], VerifySnapshot(h, p, xs[n - 1]).value;
      SnapshotValid(h, p, xs[n - 1], t);
      TransitionsEnd(h, p, xs[n - 1], t, a.op, a.fee, a.external);
    }
  }

  lemma SnapshotValid(h: Hashes, p: Profile, x: Snapshot, s: Ledger)
    requires VerifySnapshot(h, p, x) == Ok(s)
    ensures ValidLedger(s)
  {
    hide VerifySnapshot, ValidLedger;
    VerifyIsVerified(h, p, x, s);
  }

  /** A client that plans on the successor of its last plan, by whatever mix of actions, has fewer than 266 plans that go on. */
  lemma ChainsEnd(h: Hashes, p: Profile, xs: seq<Snapshot>, plans: seq<Planned>)
    requires Chained(h, p, xs, plans) && VerifySnapshot(h, p, xs[0]).Ok?
    ensures |plans| < 266
  {
    hide VerifySnapshot, Rank, ValidLedger, PlannedOn;
    var n := |plans|;
    var s := VerifySnapshot(h, p, xs[0]).value;
    ChainDescends(h, p, xs, plans, s, n);
    SnapshotValid(h, p, xs[0], s);
    RankPositive(s);
    var t := VerifySnapshot(h, p, xs[n]).value;
    SnapshotValid(h, p, xs[n], t);
    RankPositive(t);
  }

  // ---------------------------------------------------------------- comparing views

  /** A round view's progress fields; a summary row may lack some. */
  datatype Progress = Progress(terminal: bool, phase: Option<int>, purchaseCount: Option<int>, cursor: Option<int>)

  function CompareField(a: Option<int>, b: Option<int>, rest: Option<int>): Option<int> {
    if a == None || b == None then None
    else if a != b then Some(if a.value > b.value then 1 else -1)
    else rest
  }

  /** Positive: `a` is further along. None: undecidable from the fields present. */
  function CompareProgress(a: Progress, b: Progress): Option<int> {
    if a.terminal != b.terminal then Some(if a.terminal then 1 else -1)
    else if a.terminal then Some(0)
    else CompareField(a.phase, b.phase, CompareField(a.purchaseCount, b.purchaseCount,
           CompareField(a.cursor, b.cursor, Some(0))))
  }

  lemma CompareIsOrder(a: Progress, b: Progress, c: Progress)
    ensures CompareProgress(a, b) == Some(1) <==> CompareProgress(b, a) == Some(-1)
    ensures CompareProgress(a, b) == Some(1) && CompareProgress(b, c) == Some(1) ==> CompareProgress(a, c) == Some(1)
  {
  }

  /** `a` is known to be further than `b` by phase, then by purchases, then by cursor. */
  predicate Further(a: Progress, b: Progress) {
    && a.phase.Some? && b.phase.Some?
    && (a.phase.value > b.phase.value
        || (a.phase == b.phase && a.purchaseCount.Some? && b.purchaseCount.Some?
            && (a.purchaseCount.value > b.purchaseCount.value
                || (a.purchaseCount == b.purchaseCount && a.cursor.Some? && b.cursor.Some? && a.cursor.value > b.cursor.value))))
  }

  /** A terminal round is further than any other; between two that go on, phase decides before purchases and purchases before
      the cursor; rounds are level when both are over or all three are known and equal; anything else is undecided. */
  lemma CompareExactly(a: Progress, b: Progress)
    ensures CompareProgress(a, b) == Some(1) <==> (a.terminal && !b.terminal) || (!a.terminal && !b.terminal && Further(a, b))
    ensures CompareProgress(a, b) == Some(-1) <==> (b.terminal && !a.terminal) || (!a.terminal && !b.terminal && Further(b, a))
    ensures CompareProgress(a, b) == Some(0)
       <==> (a.terminal && b.terminal)
            || (!a.terminal && !b.terminal && a.phase.Some? && a.purchaseCount.Some? && a.cursor.Some?
                && a.phase == b.phase && a.purchaseCount == b.purchaseCount && a.cursor == b.cursor)
    ensures CompareProgress(a, b) in {None, Some(-1), Some(0), Some(1)}
  {
  }

  function ProgressOf(s: Ledger): Progress {
    Progress(false, Some(s.phase), Some(s.purchaseCount), Some(s.cursor))
  }

  /** What a round shows after transition `t`: its successor's counters, or a terminal row with whatever counters. */
  predicate Shows(t: Transition, after: Progress) {
    if t.next.Some? then after == ProgressOf(t.next.value) else after.terminal
  }

  /** Every transition puts the round strictly further along. */
  lemma TransitionsAdvance(h: Hashes, p: Profile, x: Snapshot, s: Ledger, op: Operation, fee: int, external: int, after: Progress)
    requires VerifySnapshot(h, p, x) == Ok(s) && ValidLedger(s) && TransitionOf(h, p, x, op, fee, external).Ok?
    requires Shows(TransitionOf(h, p, x, op, fee, external).value, after)
    ensures CompareProgress(after, ProgressOf(s)) == Some(1)
  {
    hide VerifySnapshot, TransitionOf, ValidLedger;
    var t := TransitionOf(h, p, x, op, fee, external).value;
    if t.next.Some? {
      var m := NextIsMove(h, p, x, s, op, fee, external);
      MoveAdvances(s, m);
    }
  }

  lemma MoveAdvances(s: Ledger, m: Lineage.Move)
    requires Lineage.CanMove(s, m)
    ensures CompareProgress(ProgressOf(Lineage.Moved(s, m)), ProgressOf(s)) == Some(1)
  {
    hide Ascending, StartAt, EndAt;
  }
}
