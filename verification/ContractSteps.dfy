/** The byte-level template actions, characterised exactly on the encoding of a valid ledger. */
module ContractSteps {
  import opened Results
  import opened Bytes
  import opened Layout
  import opened State
  import opened Directory
  import opened Scripts
  import opened Tx
  import opened Frames
  import opened Draws
  import opened Sil
  import opened LedgerEdits
  import Open
  import Sealed
  import Refunding

  /** The two forward template hashes admit only the pinned tails. */
  ghost predicate TemplatesBind(h: Hashes, p: Profile) {
    && Unmatched(h.blake3, TemplateBytes(p.sealed.tail))
    && Unmatched(h.blake3, TemplateBytes(p.refunding.tail))
  }

  lemma PinnedTailOnly(h: Hashes, p: Profile, m: Module, tail: Bytes)
    requires TemplatesBind(h, p) && m != OpenModule
    ensures TemplateHash(h, tail) == TemplateHash(h, FrameOf(p, m).tail) <==> tail == FrameOf(p, m).tail
  {
    if TemplateHash(h, tail) == TemplateHash(h, FrameOf(p, m).tail) {
      assert TemplateBytes(tail) == TemplateBytes(FrameOf(p, m).tail);
      TemplateBytesInjective(tail, FrameOf(p, m).tail);
    }
  }

  /** Output 0 alone continues the family, as the state output of `next`. */
  predicate Continues(h: Hashes, p: Profile, e: Env, id: Bytes, next: Ledger, value: int) {
    && Decodable(next)
    && AuthOutputs(e.tx, 0) == [0]
    && CovOutputs(e.tx, id) == [0]
    && |e.tx.outputs| > 0
    && CovenantIdOf(e.tx.outputs[0]) == id
    && e.tx.outputs[0].value == value
    && e.tx.outputs[0].scriptPublicKey == P2sh(h.blake2b(ScriptOf(next, p)))
  }

  lemma SuccessorContinues(h: Hashes, p: Profile, e: Env, id: Bytes, next: Ledger, value: int)
    requires Decodable(next)
    ensures Successor(h, e, id, LedgerBytes(next), FrameOf(p, PhaseModule(next.phase)).tail, value).Val?
       <==> Continues(h, p, e, id, next, value)
  {
    hide LedgerBytes, ScriptFor, LedgerScript;
    LedgerSlices(next);
    ScriptForIsLedgerScript(LedgerBytes(next), FrameOf(p, PhaseModule(next.phase)).tail);
  }

  // ---------------------------------------------------------------- OPEN

  lemma OpenCheckPasses(s: Ledger)
    requires ValidLedger(s) && s.phase == OPEN
    ensures Open.CheckLedger(LedgerBytes(s)).Val?
  {
    hide LedgerBytes, U32, U63;
    LedgerReads(s);
  }

  predicate BuyStep(h: Hashes, p: Profile, e: Env, s: Ledger, a: Open.Args)
    requires Matched(e) && e.utxos[0].covenantId.Some?
  {
    && a.nextTail == []
    && |a.data| == 4
    && |e.tx.inputs| >= 2
    && U32(a.data, 0).Val?
    && var quantity := U32(a.data, 0).value;
    && CanBuy(s, quantity, a.actorPk)
    && Continues(h, p, e, e.utxos[0].covenantId.value, Bought(s, quantity, a.actorPk),
                 e.utxos[0].value + Cost(quantity, s.config.ticketPrice))
  }

  lemma BuyCharacterised(h: Hashes, p: Profile, e: Env, s: Ledger, a: Open.Args)
    requires Matched(e) && e.utxos[0].covenantId.Some?
    requires ValidLedger(s) && s.phase == OPEN && e.utxos[0].value == ValueOf(s)
    requires |a.actorPk| == KEY_BYTES
    ensures |LedgerBytes(s)| >= HEADER_BYTES
    ensures Open.Buy(h, e, LedgerBytes(s), a, p.open.tail)
         == if BuyStep(h, p, e, s, a)
            then Val(Continue(OpenModule, LedgerBytes(Bought(s, U32(a.data, 0).value, a.actorPk))))
            else Abort
  {
    hide LedgerBytes, U32, U63, Set4, Le, Successor, ValidLedger, ValueOf, ValidConfig, Continues, Cost;
    ValidParts(s);
    LedgerReads(s);
    if a.nextTail == [] && |a.data| == 4 && |e.tx.inputs| >= 2 && U32(a.data, 0).Val? {
      var quantity := U32(a.data, 0).value;
      if CanBuy(s, quantity, a.actorPk) {
        var next := Bought(s, quantity, a.actorPk);
        PurchaseKeepsValid(s, quantity, a.actorPk);
        ValidParts(next);
        PurchaseEdit(s, quantity, a.actorPk);
        PriceBound(quantity, s.config.ticketPrice, s.config.ticketCap);
        SuccessorContinues(h, p, e, e.utxos[0].covenantId.value, next,
                           e.utxos[0].value + Cost(quantity, s.config.ticketPrice));
      }
    }
  }

  /** The ranges that a valid ledger guarantees. */
  lemma ValidParts(s: Ledger)
    requires ValidLedger(s)
    ensures Decodable(s) && Fits(s) && s.phase in {OPEN, SEALED, REFUNDING}
    ensures 0 <= s.purchaseCount <= s.sold <= s.config.ticketCap <= MAX_TICKETS
    ensures 3 <= s.config.ticketCap && MIN_PRICE <= s.config.ticketPrice <= (VALUE_LIMIT - DEPOSIT) / s.config.ticketCap
    ensures |s.directory| == RECORD_BYTES * s.purchaseCount && HasRecords(s.directory, s.purchaseCount)
    ensures 0 <= s.cursor <= s.purchaseCount
    ensures s.phase == REFUNDING ==> s.cursor < s.purchaseCount
    ensures DEPOSIT <= ValueOf(s) <= VALUE_LIMIT
  {
  }

  /** The ledger that closing a round with purchases leads to. */
  function Closed(s: Ledger): Ledger {
    s.(phase := if s.sold >= s.config.minTickets then SEALED else REFUNDING)
  }

  lemma ClosedValid(s: Ledger)
    requires ValidLedger(s) && s.phase == OPEN && s.sold > 0
    ensures ValidLedger(Closed(s)) && ValueOf(Closed(s)) == ValueOf(s)
  {
    hide StartAt, Cost;
  }

  predicate CloseStep(h: Hashes, p: Profile, e: Env, s: Ledger, a: Open.Args)
    requires Matched(e) && e.utxos[0].covenantId.Some?
  {
    var id := e.utxos[0].covenantId.value;
    && a.data == []
    && |e.tx.inputs| >= 2
    && ((s.sold < s.config.ticketCap && s.purchaseCount < s.config.purchaseCap) ==>
          LockedUntil(e, s.config.closeEligibleDaa - 1))
    && if s.sold == 0 then
         a.nextTail == [] && NoFamily(e, id) && Ordinary(e, 0, DEPOSIT, s.ownerKey)
       else
         && a.nextTail == FrameOf(p, PhaseModule(Closed(s).phase)).tail
         && Continues(h, p, e, id, Closed(s), e.utxos[0].value)
  }

  function CloseVerdict(s: Ledger): Verdict
    requires ValidLedger(s) && s.phase == OPEN
  {
    if s.sold == 0 then Final(EMPTY)
    else
      ClosedValid(s);
      Continue(PhaseModule(Closed(s).phase), LedgerBytes(Closed(s)))
  }

  lemma CloseCharacterised(h: Hashes, p: Profile, e: Env, s: Ledger, a: Open.Args)
    requires Matched(e) && e.utxos[0].covenantId.Some?
    requires ValidLedger(s) && s.phase == OPEN && e.utxos[0].value == ValueOf(s)
    requires TemplatesBind(h, p)
    ensures |LedgerBytes(s)| >= HEADER_BYTES
    ensures Open.Close(h, p, e, LedgerBytes(s), a)
         == if CloseStep(h, p, e, s, a) then Val(CloseVerdict(s)) else Abort
  {
    hide LedgerBytes, U32, U63, Set4, Successor, Continues, ValidLedger, ValueOf, TemplateHash, Ordinary, NoFamily,
      LockedUntil, TemplatesBind, Decodable;
    ValidParts(s);
    LedgerReads(s);
    if s.sold > 0 {
      ClosedEdit(h, p, e, s, a.nextTail);
    }
  }

  /** The phase edit of a close with purchases, its template and its successor output. */
  lemma ClosedEdit(h: Hashes, p: Profile, e: Env, s: Ledger, tail: Bytes)
    requires Matched(e) && e.utxos[0].covenantId.Some? && TemplatesBind(h, p)
    requires Decodable(s) && ValidLedger(s) && s.phase == OPEN && s.sold > 0 && e.utxos[0].value == ValueOf(s)
    ensures var next := Closed(s);
            var frame := FrameOf(p, PhaseModule(next.phase));
            && Decodable(next) && Set4(LedgerBytes(s), OFFSET_PHASE, next.phase) == Val(LedgerBytes(next))
            && (TemplateHash(h, tail) == TemplateHash(h, frame.tail) <==> tail == frame.tail)
            && (Successor(h, e, e.utxos[0].covenantId.value, LedgerBytes(next), frame.tail, e.utxos[0].value).Val?
                <==> Continues(h, p, e, e.utxos[0].covenantId.value, next, e.utxos[0].value))
  {
    hide LedgerBytes, Set4, Successor, Continues, ValidLedger, ValueOf, TemplateHash, TemplatesBind;
    var next := Closed(s);
    ValidParts(s);
    ClosedValid(s);
    ValidParts(next);
    PhaseEdit(s, next.phase);
    PinnedTailOnly(h, p, PhaseModule(next.phase), tail);
    SuccessorContinues(h, p, e, e.utxos[0].covenantId.value, next, ValueOf(s));
  }

  // ---------------------------------------------------------------- SEALED

  lemma SealedCheckIs(e: Env, s: Ledger)
    requires Matched(e) && ValidLedger(s) && s.phase == SEALED
    ensures |LedgerBytes(s)| >= HEADER_BYTES
    ensures Sealed.CheckLedger(e, LedgerBytes(s)).Val? <==> e.utxos[0].value == ValueOf(s)
  {
    hide LedgerBytes, U32, U63, Cost, StartAt;
    LedgerReads(s);
    PriceBound(s.sold, s.config.ticketPrice, s.config.ticketCap);
  }

  function Prize(s: Ledger, fee: int): int {
    Cost(s.sold, s.config.ticketPrice) - FINALIZER - fee
  }

  predicate PayoutStep(e: Env, s: Ledger, ticket: int, hint: nat, executor: Bytes, fee: int)
    requires Matched(e) && e.utxos[0].covenantId.Some? && ValidLedger(s)
  {
    && |e.tx.inputs| == 1
    && fee <= MAX_PAY_FEE
    && hint < s.purchaseCount
    && StartAt(s.directory, hint) <= ticket < EndAt(s.directory, hint)
    && Prize(s, fee) >= MIN_PRICE
    && TerminalShape(e, e.utxos[0].covenantId.value, 3)
    && Ordinary(e, 0, Prize(s, fee), KeyAt(s.directory, hint))
    && Ordinary(e, 1, DEPOSIT, s.ownerKey)
    && Ordinary(e, 2, FINALIZER, executor)
  }

  lemma PayoutCharacterised(e: Env, s: Ledger, ticket: int, hint: nat, executor: Bytes, fee: int)
    requires Matched(e) && e.utxos[0].covenantId.Some? && ValidLedger(s)
    ensures |LedgerBytes(s)| >= HEADER_BYTES
    ensures Sealed.Payout(e, LedgerBytes(s), ticket, hint, executor, fee)
         == if PayoutStep(e, s, ticket, hint, executor, fee) then Val(Final(PAID)) else Abort
  {
    hide LedgerBytes, U32, U63, Cost, ValidLedger, Sealed.RecordEnd, Sealed.RecordKey, TerminalShape, Ordinary, KeyAt,
      EndAt;
    ValidParts(s);
    LedgerReads(s);
    PriceBound(s.sold, s.config.ticketPrice, s.config.ticketCap);
    if hint < s.purchaseCount {
      RecordReads(s, hint);
      if hint > 0 {
        RecordReads(s, hint - 1);
      }
    } else {
      RecordPastEnd(s, hint);
    }
  }

  lemma TimedOutValid(s: Ledger)
    requires ValidLedger(s) && s.phase == SEALED
    ensures ValidLedger(s.(phase := REFUNDING)) && ValueOf(s.(phase := REFUNDING)) == ValueOf(s)
  {
    hide StartAt, Cost;
  }

  predicate TimeoutStep(h: Hashes, p: Profile, e: Env, s: Ledger, a: Sealed.Args)
    requires Matched(e) && e.utxos[0].covenantId.Some?
  {
    && a.data == []
    && 0 <= e.utxos[0].daa < DAA_LIMIT - TIMEOUT_DELAY
    && AgedBy(e, TIMEOUT_DELAY)
    && a.nextTail == p.refunding.tail
    && Continues(h, p, e, e.utxos[0].covenantId.value, s.(phase := REFUNDING), e.utxos[0].value)
  }

  function TimeoutVerdict(s: Ledger): Verdict
    requires ValidLedger(s) && s.phase == SEALED
  {
    hide ValidLedger;
    TimedOutValid(s);
    ValidParts(s.(phase := REFUNDING));
    Continue(RefundingModule, LedgerBytes(s.(phase := REFUNDING)))
  }

  lemma TimeoutCharacterised(h: Hashes, p: Profile, e: Env, s: Ledger, a: Sealed.Args)
    requires Matched(e) && e.utxos[0].covenantId.Some?
    requires Decodable(s) && ValidLedger(s) && s.phase == SEALED && e.utxos[0].value == ValueOf(s)
    requires TemplatesBind(h, p)
    ensures Sealed.Timeout(h, p, e, LedgerBytes(s), a)
         == if TimeoutStep(h, p, e, s, a) then Val(TimeoutVerdict(s)) else Abort
  {
    hide LedgerBytes, Set4, Successor, Continues, ValidLedger, ValueOf, TemplateHash, AgedBy, ScriptOf, P2sh, TemplatesBind;
    TimedOutValid(s);
    ValidParts(s);
    PhaseEdit(s, REFUNDING);
    PinnedTailOnly(h, p, RefundingModule, a.nextTail);
    SuccessorContinues(h, p, e, e.utxos[0].covenantId.value, s.(phase := REFUNDING), ValueOf(s));
  }

  // ---------------------------------------------------------------- REFUNDING

  lemma RefundingCheckIs(e: Env, s: Ledger)
    requires Matched(e) && ValidLedger(s) && s.phase == REFUNDING
    ensures |LedgerBytes(s)| >= HEADER_BYTES
    ensures Refunding.PaidTickets(LedgerBytes(s)) == Val(StartAt(s.directory, s.cursor))
    ensures Refunding.CheckLedger(e, LedgerBytes(s)).Val? <==> e.utxos[0].value == ValueOf(s)
  {
    hide LedgerBytes, U32, U63, Cost, EndAt, Sealed.RecordEnd;
    LedgerReads(s);
    if s.cursor > 0 {
      RecordReads(s, s.cursor - 1);
    }
    ValueBound(s);
  }

  /** With records paid in order from output `first`, record `i` is paid its refund. */
  predicate Refunds(e: Env, first: nat, s: Ledger, i: nat)
    requires 0 <= s.cursor <= i && HasRecords(s.directory, i + 1)
  {
    var index := first + i - s.cursor;
    && index < |e.tx.outputs|
    && e.tx.outputs[index].value == Cost(CountAt(s.directory, i), s.config.ticketPrice) - REFUND_FEE
    && e.tx.outputs[index].scriptPublicKey == P2pk(KeyAt(s.directory, i))
    && CovenantIdOf(e.tx.outputs[index]) == ZERO
  }

  lemma CostAtLeastPrice(tickets: int, price: int)
    requires tickets >= 1 && price >= 0
    ensures Cost(tickets, price) >= price
  {
    assert tickets * price >= 1 * price;
  }

  lemma CountRange(s: Ledger, i: nat)
    requires ValidLedger(s) && i < s.purchaseCount
    ensures 1 <= CountAt(s.directory, i) <= s.sold
  {
    hide EndAt;
    assert Rises(s.directory, i, s.sold);
  }

  lemma CountBound(s: Ledger, i: nat)
    requires ValidLedger(s) && i < s.purchaseCount
    ensures 1 <= CountAt(s.directory, i) <= s.sold
    ensures MIN_PRICE <= Cost(CountAt(s.directory, i), s.config.ticketPrice) <= VALUE_LIMIT - DEPOSIT
  {
    hide StartAt, EndAt, ValidLedger, Cost;
    ValidParts(s);
    CountRange(s, i);
    PriceBound(CountAt(s.directory, i), s.config.ticketPrice, s.config.ticketCap);
    CostAtLeastPrice(CountAt(s.directory, i), s.config.ticketPrice);
  }

  lemma RefundRecordCharacterised(e: Env, s: Ledger, first: nat, i: nat)
    requires ValidLedger(s) && s.cursor <= i < s.purchaseCount
    ensures Refunding.RefundRecord(e, LedgerBytes(s), HEADER_BYTES + i * RECORD_BYTES, first + i - s.cursor,
                                   StartAt(s.directory, i), s.config.ticketPrice)
         == if Refunds(e, first, s, i) then Val(StartAt(s.directory, i + 1)) else Abort
  {
    hide LedgerBytes, EndAt, KeyAt, FromLe, Cost, ValidConfig;
    ValidParts(s);
    var b, at := LedgerBytes(s), HEADER_BYTES + i * RECORD_BYTES;
    RecordSlices(s, i);
    CountBound(s, i);
    assert Rises(s.directory, i, s.sold);
    var record := b[at..at + RECORD_BYTES];
    assert record[..4] == b[at..at + 4] && record[4..] == b[at + 4..at + RECORD_BYTES];
    SignByte(record[..4]);
    Pow256Values();
    assert Pow256(3) == 256 * Pow256(2);
  }

  /** From output `first` on, the outputs pay the next `n` records. */
  predicate RefundsAll(e: Env, first: nat, s: Ledger, n: nat)
    requires 0 <= s.cursor && HasRecords(s.directory, s.cursor + n)
  {
    forall i | s.cursor <= i < s.cursor + n :: Refunds(e, first, s, i)
  }

  lemma {:induction false} RefundRecordsCharacterised(e: Env, s: Ledger, first: nat, n: nat)
    requires ValidLedger(s) && 0 <= s.cursor && s.cursor + n <= s.purchaseCount
    ensures Refunding.RefundRecords(e, LedgerBytes(s), s.cursor, first, StartAt(s.directory, s.cursor),
                                    s.config.ticketPrice, n)
         == if RefundsAll(e, first, s, n) then Val(StartAt(s.directory, s.cursor + n))
            else Abort
  {
    hide LedgerBytes, EndAt, StartAt, KeyAt, Refunds, ValidLedger, Refunding.RefundRecord;
    ValidParts(s);
    if n > 0 {
      RefundRecordsCharacterised(e, s, first, n - 1);
      RefundRecordCharacterised(e, s, first, s.cursor + n - 1);
    }
  }

  function BatchSize(s: Ledger): int {
    Refunding.Min(s.purchaseCount - s.cursor, MAX_REFUND_RECORDS)
  }

  function IsLast(s: Ledger): bool {
    s.cursor + BatchSize(s) == s.purchaseCount
  }

  function Pool(s: Ledger): int {
    BatchSize(s) * REFUND_FEE + if IsLast(s) then REFUND_FEE else 0
  }

  /** The ticket value that the next batch refunds. */
  function BatchGross(s: Ledger): int
    requires ValidLedger(s) && s.phase == REFUNDING
  {
    Cost(StartAt(s.directory, s.cursor + BatchSize(s)) - StartAt(s.directory, s.cursor), s.config.ticketPrice)
  }

  lemma AdvancedValid(s: Ledger)
    requires ValidLedger(s) && s.phase == REFUNDING && !IsLast(s)
    ensures ValidLedger(s.(cursor := s.cursor + BatchSize(s)))
    ensures ValueOf(s.(cursor := s.cursor + BatchSize(s)))
         == ValueOf(s) - BatchGross(s)
  {
    hide EndAt, StartAt, Cost, Ascending, ValidConfig;
    var t := s.(cursor := s.cursor + BatchSize(s));
    var lo: int, mid: int := StartAt(s.directory, s.cursor), StartAt(s.directory, t.cursor);
    Distribute(s.sold - mid, mid - lo, s.config.ticketPrice);
  }

  lemma BatchGrossBound(s: Ledger)
    requires ValidLedger(s) && s.phase == REFUNDING
    ensures 0 < BatchSize(s) <= MAX_REFUND_RECORDS && s.cursor + BatchSize(s) <= s.purchaseCount
    ensures 0 <= BatchGross(s) <= VALUE_LIMIT - DEPOSIT
    ensures IsLast(s) ==> StartAt(s.directory, s.cursor + BatchSize(s)) == s.sold
  {
    hide EndAt, StartAt, Cost;
    var k := BatchSize(s);
    EndsMonotone(s.directory, s.purchaseCount, s.sold, 0, s.cursor);
    EndsMonotone(s.directory, s.purchaseCount, s.sold, s.cursor, s.cursor + k);
    EndsMonotone(s.directory, s.purchaseCount, s.sold, s.cursor + k, s.purchaseCount);
    StartOfFirst(s.directory);
    PriceBound(StartAt(s.directory, s.cursor + k) - StartAt(s.directory, s.cursor), s.config.ticketPrice, s.config.ticketCap);
  }

  lemma StartOfFirst(dir: Bytes)
    ensures StartAt(dir, 0) == 0
  {
  }

  predicate RefundStep(h: Hashes, p: Profile, e: Env, s: Ledger, a: Sealed.Args)
    requires Matched(e) && e.utxos[0].covenantId.Some? && ValidLedger(s) && s.phase == REFUNDING
  {
    var id, k, last := e.utxos[0].covenantId.value, BatchSize(s), IsLast(s);
    && a.nextTail == [] && a.data == []
    && |e.tx.outputs| == k + 2
    && RefundsAll(e, if last then 0 else 1, s, k)
    && Ordinary(e, k + 1, TotalIn(e.utxos) - e.utxos[0].value + Pool(s) - a.fee, a.actorPk)
    && if last then
         NoFamily(e, id) && CovenantIdOf(e.tx.outputs[0]) == ZERO && Ordinary(e, k, DEPOSIT - REFUND_FEE, s.ownerKey)
       else
         Continues(h, p, e, id, s.(cursor := s.cursor + k), e.utxos[0].value - BatchGross(s))
  }

  function RefundVerdict(s: Ledger): Verdict
    requires ValidLedger(s) && s.phase == REFUNDING
  {
    if IsLast(s) then Final(REFUNDED)
    else
      AdvancedValid(s);
      Continue(RefundingModule, LedgerBytes(s.(cursor := s.cursor + BatchSize(s))))
  }

  lemma LastRefundCharacterised(h: Hashes, p: Profile, e: Env, s: Ledger, a: Sealed.Args)
    requires Matched(e) && e.utxos[0].covenantId.Some?
    requires ValidLedger(s) && s.phase == REFUNDING && IsLast(s)
    ensures |LedgerBytes(s)| >= HEADER_BYTES
    ensures Refunding.Batch(h, e, LedgerBytes(s), a, p.refunding.tail)
         == if RefundStep(h, p, e, s, a) then Val(Final(REFUNDED)) else Abort
  {
    hide LedgerBytes, U32, U63, Set4, Cost, EndAt, StartAt, ValidLedger, ValueOf, Continues, Successor, Ordinary,
      RefundsAll, Refunding.RefundRecords, Refunding.PaidTickets, CovenantIdOf, TotalIn, NoFamily;
    ValidParts(s);
    LedgerReads(s);
    RefundingCheckIs(e, s);
    RefundRecordsCharacterised(e, s, 0, BatchSize(s));
    BatchGrossBound(s);
  }

  lemma NextRefundCharacterised(h: Hashes, p: Profile, e: Env, s: Ledger, a: Sealed.Args)
    requires Matched(e) && e.utxos[0].covenantId.Some?
    requires ValidLedger(s) && s.phase == REFUNDING && !IsLast(s) && e.utxos[0].value == ValueOf(s)
    ensures |LedgerBytes(s)| >= HEADER_BYTES && ValidLedger(s.(cursor := s.cursor + BatchSize(s)))
    ensures Refunding.Batch(h, e, LedgerBytes(s), a, p.refunding.tail)
         == if RefundStep(h, p, e, s, a)
            then Val(Continue(RefundingModule, LedgerBytes(s.(cursor := s.cursor + BatchSize(s))))) else Abort
  {
    hide LedgerBytes, U32, U63, Set4, Cost, EndAt, StartAt, ValidLedger, ValueOf, Continues, Successor, Ordinary,
      RefundsAll, Refunding.RefundRecords, Refunding.PaidTickets, CovenantIdOf, TotalIn, NoFamily;
    BatchReads(s);
    RefundingCheckIs(e, s);
    RefundRecordsCharacterised(e, s, 1, BatchSize(s));
    BatchGrossBound(s);
    BatchEdit(h, p, e, s);
  }

  lemma BatchReads(s: Ledger)
    requires ValidLedger(s)
    ensures |LedgerBytes(s)| >= HEADER_BYTES
    ensures U32(LedgerBytes(s), OFFSET_REFUND_CURSOR) == Val(s.cursor)
    ensures U32(LedgerBytes(s), OFFSET_PURCHASE_COUNT) == Val(s.purchaseCount)
    ensures U63(LedgerBytes(s), OFFSET_TICKET_PRICE) == Val(s.config.ticketPrice)
  {
    hide LedgerBytes, U32, U63, ValidLedger;
    ValidParts(s);
    LedgerReads(s);
  }

  lemma RefundCharacterised(h: Hashes, p: Profile, e: Env, s: Ledger, a: Sealed.Args)
    requires Matched(e) && e.utxos[0].covenantId.Some?
    requires ValidLedger(s) && s.phase == REFUNDING && e.utxos[0].value == ValueOf(s)
    ensures |LedgerBytes(s)| >= HEADER_BYTES
    ensures Refunding.Batch(h, e, LedgerBytes(s), a, p.refunding.tail)
         == if RefundStep(h, p, e, s, a) then Val(RefundVerdict(s)) else Abort
  {
    hide LedgerBytes, ValidLedger, ValueOf, RefundStep, Refunding.Batch, BatchSize, IsLast;
    if IsLast(s) {
      LastRefundCharacterised(h, p, e, s, a);
    } else {
      NextRefundCharacterised(h, p, e, s, a);
    }
  }

  /** The cursor edit of a batch that is not the last, and its successor output. */
  lemma BatchEdit(h: Hashes, p: Profile, e: Env, s: Ledger)
    requires Matched(e) && e.utxos[0].covenantId.Some? && ValidLedger(s) && s.phase == REFUNDING && !IsLast(s)
    ensures var next := s.(cursor := s.cursor + BatchSize(s));
            && ValidLedger(next) && Decodable(next) && next.phase == REFUNDING
            && Set4(LedgerBytes(s), OFFSET_REFUND_CURSOR, s.cursor + BatchSize(s)) == Val(LedgerBytes(next))
            && (Successor(h, e, e.utxos[0].covenantId.value, LedgerBytes(next), p.refunding.tail,
                          e.utxos[0].value - BatchGross(s)).Val?
                <==> Continues(h, p, e, e.utxos[0].covenantId.value, next, e.utxos[0].value - BatchGross(s)))
  {
    hide LedgerBytes, Set4, Cost, EndAt, StartAt, ValidLedger, Continues, Successor, BatchGross, BatchSize, IsLast;
    var next := s.(cursor := s.cursor + BatchSize(s));
    AdvancedValid(s);
    ValidParts(s);
    ValidParts(next);
    BatchGrossBound(s);
    CursorEdit(s, s.cursor + BatchSize(s));
    SuccessorContinues(h, p, e, e.utxos[0].covenantId.value, next, e.utxos[0].value - BatchGross(s));
  }
}
