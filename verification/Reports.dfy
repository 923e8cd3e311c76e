/** What the reader reports of a transaction that it takes: the roles of its outputs, and for a draw the opening, the winning
    ticket and the prize (scripts/core/src/accepted.ts:26-90). */
module Reports {
  import opened Results
  import opened Bytes
  import opened Layout
  import opened State
  import opened Directory
  import opened Scripts
  import opened Tx
  import opened Frames
  import opened Draws
  import opened Protocol
  import opened Accepted
  import Sil
  import Spends
  import Transitions

  /** `first`, and auxiliary outputs up to `n`. */
  predicate Leads(first: Role, roles: seq<Role>, n: nat) {
    |roles| == n && n > 0 && roles[0] == first && forall i | 0 < i < n :: roles[i] == AUXILIARY
  }

  /** The `n` outputs from `from` on refund buyers. */
  predicate RefundRun(roles: seq<Role>, from: nat, n: nat) {
    from + n <= |roles| && forall i | from <= i < from + n :: roles[i] == BUYER_REFUND
  }

  /** The roles of the outputs of an action on a ledger. */
  predicate RolesAre(s: Ledger, a: Action, roles: seq<Role>, n: nat) {
    match a
    case BUY => Leads(STATE, roles, n)
    case CLOSE => Leads(if s.sold == 0 then CREATOR else STATE, roles, n)
    case DRAW_AND_PAY => roles == [WINNER, CREATOR, EXECUTOR]
    case TIMEOUT_REFUND => Leads(STATE, roles, n)
    case REFUND =>
      && |roles| == n && n >= 2
      && (if s.purchaseCount - s.cursor <= 32
          then n == s.purchaseCount - s.cursor + 2 && RefundRun(roles, 0, n - 2) && roles[n - 2] == CREATOR
          else n == 34 && roles[0] == STATE && RefundRun(roles, 1, 32))
      && roles[n - 1] == EXECUTOR
  }

  /** The draw and the winner as reported: the opening of the witness, the seed on the snapshot, and the one record whose window
      holds the ticket, tickets counted from one. */
  predicate DrawReported(h: Hashes, x: Snapshot, s: Ledger, data: Bytes, tx: Transaction, fee: int, d: DrawInfo, w: WinnerInfo)
    requires ValidLedger(s) && s.phase == SEALED && s.sold > 0 && x.tip.index >= 0 && 0 <= x.utxoDaa
  {
    hide ValidLedger, Transitions.SeedOn, SampleValue, TargetSeq;
    && |data| == 244 && d.opening == data[..240] && d.target == data[..32] && d.seqCommit == TargetSeq(h, data[..240])
    && d.boundaryDaa == x.utxoDaa + 100 && d.anchorDaa == x.utxoDaa && d.seed == Transitions.SeedOn(h, x, s, data[..240])
    && w.record == FromLe(data[240..244]) && HasRecords(s.directory, w.record + 1)
    && w.ticket == SampleValue(h, d.seed) % s.sold + 1 && w.firstTicket <= w.ticket <= w.lastTicket
    && w.firstTicket == StartAt(s.directory, w.record) + 1 && w.lastTicket == EndAt(s.directory, w.record)
    && w.ticketsInRecord == w.lastTicket - w.firstTicket + 1 && w.key == KeyAt(s.directory, w.record)
    && w.prize == s.sold * s.config.ticketPrice - 100_000_000 - fee
    && |tx.outputs| == 3 && tx.outputs[0] == Output(w.prize, P2pk(w.key), None)
    && tx.outputs[1] == Output(400_000_000, P2pk(s.ownerKey), None)
  }

  lemma DrawReport(h: Hashes, x: Snapshot, s: Ledger, w: SpendInfo, tx: Transaction, fee: int)
    requires ValidLedger(s) && Decodable(s) && s.phase == SEALED && s.sold > 0 && x.tip.index >= 0 && 0 <= x.utxoDaa
    requires ReadDraw(h, x, s, w, tx, fee).Ok?
    ensures var f := ReadDraw(h, x, s, w, tx, fee).value;
            && f.next == None && f.roles == [WINNER, CREATOR, EXECUTOR] && f.draw.Some? && f.winner.Some?
            && f.timeoutAnchorDaa == None
            && DrawReported(h, x, s, w.data, tx, fee, f.draw.value, f.winner.value)
  {
    hide ValidLedger, Decodable, Transitions.SeedOn, SampleValue, TargetSeq, DrawWinner, Transitions.OpeningHolds, Age, Records, P2pk,
      KeyAt, StartAt, EndAt, FromLe, Payable;
    var target := w.data[..32];
    ValidRecords(s);
    var i := Transitions.WinnerExactly(h, x, s, w.data[..240], Accessor(target, TargetSeq(h, w.data[..240])));
    RecordParts(s, i);
    assert w.data[240..] == w.data[240..244];
  }

  lemma RecordParts(s: Ledger, i: nat)
    requires 0 <= s.purchaseCount && HasRecords(s.directory, s.purchaseCount) && i < s.purchaseCount
    ensures var r := RecordList(s.directory, s.purchaseCount)[i];
            && r.key == KeyAt(s.directory, i) && r.end == EndAt(s.directory, i)
            && r.count == EndAt(s.directory, i) - StartAt(s.directory, i)
  {
    hide KeyAt, StartAt, EndAt;
  }

  lemma RefundReport(s: Ledger, w: SpendInfo, tx: Transaction, fee: int, external: int)
    requires ValidLedger(s) && s.phase == REFUNDING && ReadRefund(s, w, tx, fee, external).Ok?
    ensures var f := ReadRefund(s, w, tx, fee, external).value;
            && f.draw == None && f.winner == None && f.timeoutAnchorDaa == None && |tx.outputs| > 0 && |f.roles| == |tx.outputs|
            && RolesAre(s, REFUND, if f.next.Some? then f.roles[0 := STATE] else f.roles, |tx.outputs|)
  {
    hide ValidLedger, Records, RefundsPaid, PaysAs;
    Transitions.BatchIs(s);
  }

  lemma PlainReport(h: Hashes, x: Snapshot, s: Ledger, w: SpendInfo, tx: Transaction, fee: int, external: int)
    requires Decodable(s) && x.tip.index >= 0 && tx.inputs != [] && tx.outputs != []
    requires w.action in {BUY, CLOSE, TIMEOUT_REFUND} && ReadAction(h, x, s, w, tx, fee, external).Ok?
    ensures var f := ReadAction(h, x, s, w, tx, fee, external).value;
            && f.draw == None && f.winner == None && |f.roles| == |tx.outputs|
            && f.timeoutAnchorDaa == (if w.action == TIMEOUT_REFUND then Some(x.utxoDaa) else None)
            && RolesAre(s, w.action, if f.next.Some? then f.roles[0 := STATE] else f.roles, |tx.outputs|)
  {
    hide AppendPurchase, PaysAs, Age;
  }

  /** The parts of an interpretation. */
  lemma Parts(h: Hashes, p: Profile, x: Snapshot, tx: Transaction, inputValues: Option<seq<int>>)
    returns (s: Ledger, w: SpendInfo, external: int, fee: int, f: Effect, roles: seq<Role>)
    requires InterpretAccepted(h, p, x, tx, inputValues).Ok?
    ensures VerifySnapshot(h, p, x) == Ok(s) && Verified(h, p, x, s) && ValidLedger(s) && Decodable(s)
    ensures x.tip.index >= 0 && 0 <= x.utxoDaa && tx.inputs != [] && tx.outputs != []
    ensures CheckedSpend(p, x, tx) == Ok(w) && Funding(x, tx, inputValues) == Ok((external, fee)) && fee == w.witnessFee
    ensures ReadAction(h, x, s, w, tx, fee, external) == Ok(f)
    ensures |f.roles| == |tx.outputs| && roles == if f.next.Some? then f.roles[0 := STATE] else f.roles
    ensures InterpretAccepted(h, p, x, tx, inputValues)
         == Ok(Interpretation(w.action, w.to, w.actorKey, s, f.next, f.terminal, w.witnessFee, fee, external, roles, f.draw,
                              f.winner, f.timeoutAnchorDaa))
  {
    hide VerifySnapshot, Verified, ValidLedger, Decodable, CheckedSpend, ReadAction, Funding, ValidateLedger, ValidTransaction, P2sh,
      ScriptOf, ValueOf;
    s, w := VerifySnapshot(h, p, x).value, CheckedSpend(p, x, tx).value;
    VerifyIsVerified(h, p, x, s);
    Transitions.VerifiedFacts(h, p, x, s);
    external, fee := CheckedFunding(x, tx, w, inputValues).value.0, CheckedFunding(x, tx, w, inputValues).value.1;
    f, roles := ReadStep(h, p, x, s, w, tx, fee, external).value.0, ReadStep(h, p, x, s, w, tx, fee, external).value.1;
  }

  /** The witness names the phase of the snapshot, and an action of that phase. */
  lemma PhaseNamed(h: Hashes, p: Profile, x: Snapshot, s: Ledger, tx: Transaction, w: SpendInfo)
    requires Verified(h, p, x, s) && CheckedSpend(p, x, tx) == Ok(w)
    ensures w.to == PhaseModule(s.phase) && Allowed(w.to, w.action) && s.phase in {OPEN, SEALED, REFUNDING}
    ensures tx.inputs != []
    ensures w.to == SealedModule ==> && ScriptPushes(tx.inputs[0].signatureScript).Ok?
                                     && |ScriptPushes(tx.inputs[0].signatureScript).value| == 8
                                     && w.data == ScriptPushes(tx.inputs[0].signatureScript).value[3]
  {
    hide ScriptPushes, Verified, DecodeSpend, CheckedSpend, PhaseModule, Allowed, ValidLedger, Decodable, LedgerBytes;
    LedgerOf(h, p, x, s);
    CheckedIs(p, x, tx, w);
    SpendLedger(p, tx.inputs[0].signatureScript, Some(x.origin), w);
    assert DecodeLedger(LedgerBytes(s)) == Ok(s) by { DecodeOfEncode(s); }
    assert DecodeLedger(LedgerBytes(w.spent)) == Ok(w.spent) by { DecodeOfEncode(w.spent); }
  }

  lemma CheckedIs(p: Profile, x: Snapshot, tx: Transaction, w: SpendInfo)
    requires CheckedSpend(p, x, tx) == Ok(w)
    ensures tx.inputs != [] && DecodeSpend(p, tx.inputs[0].signatureScript, Some(x.origin)) == Ok(w)
    ensures w.ledger == x.ledger && Allowed(w.to, w.action)
  {
    hide DecodeSpend, DistinctInputs, Allowed;
  }

  lemma LedgerOf(h: Hashes, p: Profile, x: Snapshot, s: Ledger)
    requires Verified(h, p, x, s)
    ensures Decodable(s) && x.ledger == LedgerBytes(s) && s.phase in {OPEN, SEALED, REFUNDING}
  {
    hide RootPreimage, ScriptOf, ValueOf, LedgerBytes, RootScript;
  }

  lemma SpendLedger(p: Profile, script: Bytes, context: Option<Outpoint>, w: SpendInfo)
    requires DecodeSpend(p, script, context) == Ok(w)
    ensures Decodable(w.spent) && w.ledger == LedgerBytes(w.spent) && w.to == PhaseModule(w.spent.phase)
    ensures w.to == SealedModule ==> ScriptPushes(script).Ok? && |ScriptPushes(script).value| == 8
                                     && w.data == ScriptPushes(script).value[3]
  {
    hide ScriptPushes, HasSuffix, RedeemLedger, WitnessOrigin, ScriptNumber, LedgerBytes, Decodable, PhaseModule;
    var pushes := ScriptPushes(script).value;
    var redeem := pushes[|pushes| - 1];
    EncodedSpent(p, redeem, w.to);
    RedeemPhase(p, redeem, w.to);
  }

  lemma RedeemPhase(p: Profile, redeem: Bytes, m: Module)
    requires |redeem| > |FrameOf(p, m).tail| && RedeemLedger(p, redeem, m).Ok?
    ensures m == PhaseModule(RedeemLedger(p, redeem, m).value.phase)
  {
    hide ScriptPushes, DecodeLedger, PhaseModule, ScriptOf, LedgerBytes;
  }

  lemma PhaseOfAction(s: Ledger, a: Action)
    requires s.phase in {OPEN, SEALED, REFUNDING} && Allowed(PhaseModule(s.phase), a)
    ensures a == DRAW_AND_PAY ==> s.phase == SEALED && PhaseModule(s.phase) == SealedModule
    ensures a == REFUND ==> s.phase == REFUNDING
  {
  }

  lemma FundingIs(x: Snapshot, tx: Transaction, inputValues: Option<seq<int>>, external: int, fee: int)
    requires tx.inputs != [] && Funding(x, tx, inputValues) == Ok((external, fee))
    ensures fee == x.value + external - TotalOut(tx.outputs)
    ensures match inputValues
            case Some(values) => |values| == |tx.inputs| && external == Sum(values[1..])
            case None => |tx.inputs| == 1 && external == 0
  {
    hide TotalOut, Sum, Payable;
  }

  /** The draw is reported from the data item of the witness, the fourth of eight. */
  predicate DrawnFrom(h: Hashes, x: Snapshot, s: Ledger, tx: Transaction, fee: int, d: DrawInfo, w: WinnerInfo)
    requires ValidLedger(s) && s.phase == SEALED && s.sold > 0 && x.tip.index >= 0 && 0 <= x.utxoDaa && tx.inputs != []
  {
    hide ValidLedger, DrawReported, ScriptPushes;
    var items := ScriptPushes(tx.inputs[0].signatureScript);
    items.Ok? && |items.value| == 8 && DrawReported(h, x, s, items.value[3], tx, fee, d, w)
  }

  /** The report of every transaction that the reader takes. */
  lemma ReportExactly(h: Hashes, p: Profile, x: Snapshot, tx: Transaction, inputValues: Option<seq<int>>)
    requires InterpretAccepted(h, p, x, tx, inputValues).Ok?
    ensures var i := InterpretAccepted(h, p, x, tx, inputValues).value;
            && Verified(h, p, x, i.spent) && ValidLedger(i.spent) && x.tip.index >= 0 && 0 <= x.utxoDaa && tx.inputs != []
            && i.to == PhaseModule(i.spent.phase) && Allowed(i.to, i.action)
            && i.fee == x.value + i.external - TotalOut(tx.outputs) && i.fee == i.witnessFee
            && (match inputValues
                case Some(values) => |values| == |tx.inputs| && i.external == Sum(values[1..])
                case None => |tx.inputs| == 1 && i.external == 0)
            && RolesAre(i.spent, i.action, i.roles, |tx.outputs|)
            && (i.draw.Some? <==> i.action == DRAW_AND_PAY) && (i.winner.Some? <==> i.action == DRAW_AND_PAY)
            && i.timeoutAnchorDaa == (if i.action == TIMEOUT_REFUND then Some(x.utxoDaa) else None)
            && (i.action == DRAW_AND_PAY ==>
                  i.spent.phase == SEALED && i.spent.sold > 0 && DrawnFrom(h, x, i.spent, tx, i.fee, i.draw.value, i.winner.value))
  {
    hide ScriptPushes, VerifySnapshot, Verified, ValidLedger, Decodable, ReadRefund, RolesAre, DrawReported, CheckedSpend, TotalOut, Sum, ReadBuy,
      ReadClose, ReadTimeout, ReadDraw, Funding, PhaseModule, InterpretAccepted, Allowed;
    var s, w, external, fee, f, roles := Parts(h, p, x, tx, inputValues);
    FundingIs(x, tx, inputValues, external, fee);
    PhaseNamed(h, p, x, s, tx, w);
    PhaseOfAction(s, w.action);
    match w.action {
      case BUY => PlainReport(h, x, s, w, tx, fee, external);
      case CLOSE => PlainReport(h, x, s, w, tx, fee, external);
      case TIMEOUT_REFUND => PlainReport(h, x, s, w, tx, fee, external);
      case DRAW_AND_PAY =>
        Spends.SealedSold(s);
        DrawReport(h, x, s, w, tx, fee);
        assert RolesAre(s, DRAW_AND_PAY, f.roles, |tx.outputs|) by { ThreeRoles(s, |tx.outputs|); }
      case REFUND => RefundReport(s, w, tx, fee, external);
    }
  }

  lemma ThreeRoles(s: Ledger, n: nat)
    ensures RolesAre(s, DRAW_AND_PAY, [WINNER, CREATOR, EXECUTOR], n)
  {
  }

  // ---------------------------------------------------------------- what the reader insists on

  /** The first input waits at least `n` by its relative lock, and that much has passed. */
  predicate Waited(x: Snapshot, sequence: int, n: int) {
    sequence < 0x8000_0000_0000_0000 && sequence % 0x1_0000_0000 >= n && x.utxoDaa + n <= x.currentDaa
  }

  /** A round that is not full is closed under an absolute lock at its close score, and not before. */
  predicate ClosedInTime(x: Snapshot, s: Ledger, lockTime: int, sequence: int) {
    s.sold < s.config.ticketCap && s.purchaseCount < s.config.purchaseCap ==>
      && s.config.closeEligibleDaa - 1 <= lockTime < 500_000_000_000 && sequence != 0xffff_ffff_ffff_ffff
      && s.config.closeEligibleDaa <= x.currentDaa
  }

  /** The shape of a transaction that spends the snapshot: at most nine distinct inputs, the tip first, payable amounts, and a fee
      of at most 50,000,000. */
  predicate SpendsTip(x: Snapshot, tx: Transaction, fee: int) {
    && ValidTransaction(tx) && tx.version == 1 && 1 <= |tx.inputs| <= 9 && |tx.outputs| >= 1
    && tx.inputs[0].previousOutpoint == x.tip
    && (forall i, j | 0 <= i < j < |tx.inputs| :: tx.inputs[i].previousOutpoint != tx.inputs[j].previousOutpoint)
    && (forall i | 0 <= i < |tx.outputs| :: 0 < tx.outputs[i].value <= 9_000_000_000_000_000)
    && 0 < x.value <= 9_000_000_000_000_000 && 0 < fee <= 50_000_000
  }

  lemma SpendShape(p: Profile, x: Snapshot, tx: Transaction, inputValues: Option<seq<int>>, w: SpendInfo, fee: int)
    requires ValidTransaction(tx) && CheckedSpend(p, x, tx) == Ok(w) && CheckedFunding(x, tx, w, inputValues).Ok?
    requires fee == CheckedFunding(x, tx, w, inputValues).value.1
    ensures SpendsTip(x, tx, fee) && |tx.outputs| <= (match w.to case OpenModule => 2 case SealedModule => 3 case RefundingModule => 34)
    ensures inputValues.Some? ==> |inputValues.value| == |tx.inputs| && inputValues.value[0] == x.value
                                  && forall i | 0 <= i < |tx.inputs| :: 0 < inputValues.value[i] <= 9_000_000_000_000_000
  {
    hide DecodeSpend, ValidTransaction, TotalOut, Sum;
  }

  /** What each action needs besides: funding for a purchase and a close, the locks of a close, a draw and a timeout, no data and
      no template where the action carries none, and no output of the covenant when the round ends. */
  lemma ActionShape(h: Hashes, x: Snapshot, s: Ledger, w: SpendInfo, tx: Transaction, fee: int, external: int)
    requires Decodable(s) && x.tip.index >= 0 && tx.inputs != [] && ReadAction(h, x, s, w, tx, fee, external).Ok?
    ensures w.action in {BUY, CLOSE} ==> |tx.inputs| >= 2
    ensures w.action == DRAW_AND_PAY ==> |tx.inputs| == 1 && |tx.outputs| == 3 && Waited(x, tx.inputs[0].sequence, 100)
    ensures w.action == TIMEOUT_REFUND ==> Waited(x, tx.inputs[0].sequence, 432_000) && x.utxoDaa < 499_999_568_000
    ensures w.action == CLOSE ==> ClosedInTime(x, s, tx.lockTime, tx.inputs[0].sequence)
    ensures w.action in {CLOSE, TIMEOUT_REFUND, REFUND} ==> w.data == []
    ensures w.action in {BUY, DRAW_AND_PAY, REFUND} || (w.action == CLOSE && s.sold == 0) ==> w.nextTail == []
  {
    hide DrawWinner, AppendPurchase, Records, RefundBatch, RefundsPaid, PaysAs, TargetSeq, DataU32;
  }

  /** Whatever the reader takes has the shape of a spend of the tip, within the outputs of its phase, and meets the locks, the
      funding and the emptiness that its action needs. */
  lemma ReaderInsists(h: Hashes, p: Profile, x: Snapshot, tx: Transaction, inputValues: Option<seq<int>>)
    requires InterpretAccepted(h, p, x, tx, inputValues).Ok?
    ensures var i := InterpretAccepted(h, p, x, tx, inputValues).value;
            && SpendsTip(x, tx, i.fee)
            && |tx.outputs| <= (match i.to case OpenModule => 2 case SealedModule => 3 case RefundingModule => 34)
            && (i.action in {BUY, CLOSE} ==> |tx.inputs| >= 2)
            && (i.action == CLOSE ==> ClosedInTime(x, i.spent, tx.lockTime, tx.inputs[0].sequence))
            && (i.action == DRAW_AND_PAY ==> |tx.inputs| == 1 && |tx.outputs| == 3 && Waited(x, tx.inputs[0].sequence, 100))
            && (i.action == TIMEOUT_REFUND ==> Waited(x, tx.inputs[0].sequence, 432_000) && x.utxoDaa < 499_999_568_000)
  {
    hide VerifySnapshot, Verified, ValidLedger, Decodable, CheckedSpend, ReadAction, Funding, SpendsTip, Waited, ClosedInTime,
      ValidTransaction, InterpretAccepted, CheckedFunding;
    var s, w, external, fee, f, roles := Parts(h, p, x, tx, inputValues);
    assert ValidTransaction(tx) && CheckedFunding(x, tx, w, inputValues) == Ok((external, fee)) by {
      FundingChecked(h, p, x, tx, inputValues, w);
    }
    SpendShape(p, x, tx, inputValues, w, fee);
    ActionShape(h, x, s, w, tx, fee, external);
  }

  lemma FundingChecked(h: Hashes, p: Profile, x: Snapshot, tx: Transaction, inputValues: Option<seq<int>>, w: SpendInfo)
    requires InterpretAccepted(h, p, x, tx, inputValues).Ok? && CheckedSpend(p, x, tx) == Ok(w)
    ensures ValidTransaction(tx) && tx.inputs != [] && CheckedFunding(x, tx, w, inputValues).Ok?
    ensures CheckedFunding(x, tx, w, inputValues) == Funding(x, tx, inputValues)
  {
    hide VerifySnapshot, Verified, ValidLedger, Decodable, CheckedSpend, ReadStep, Funding, ValidTransaction;
  }
}
