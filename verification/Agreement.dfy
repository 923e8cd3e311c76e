/** Contract and reader accept the same spends of a round's state output, with the same outcome. */
module Agreement {
  import opened Results
  import opened Bytes
  import opened Layout
  import opened State
  import opened Directory
  import opened Scripts
  import opened Tx
  import opened Frames
  import opened Sil
  import opened ContractSteps
  import opened Spends
  import opened Lineage
  import opened ReaderWitness
  import opened ContractReader
  import P = Protocol
  import A = Accepted
  import Open
  import Sealed
  import Refunding

  function SnapshotOf(h: Hashes, p: Profile, r: Round, u: Live, currentDaa: int): P.Snapshot
    requires LedgerSized(u.ledger)
  {
    P.Snapshot(u.ledger, u.tip, P2sh(h.blake2b(RedeemOf(p, u))), r.id, u.value, u.daa, currentDaa, r.origin)
  }

  /** A transaction, valid under the node's own rules, whose input 0 spends the state output `u` of ledger `s`; the
      hashes bind the redeem script, the round's genesis and the forward templates. */
  ghost predicate Spending(h: Hashes, p: Profile, r: Round, u: Live, s: Ledger, e: Env, currentDaa: int) {
    && Holds(h, p, r, u, s)
    && LedgerSized(u.ledger)
    && Unmatched(h.blake2b, RedeemOf(p, u))
    && Unmatched(h.covenantId, RootPreimage(h, r.origin, ScriptOf(GenesisOf(r), p)))
    && TemplatesBind(h, p)
    && Matched(e)
    && ValidTransaction(e.tx)
    && e.utxos[0] == Utxo(u.value, P2sh(h.blake2b(RedeemOf(p, u))), u.daa, Some(r.id))
    && e.tx.inputs[0].previousOutpoint == u.tip
    && NodeRules(e, currentDaa)
  }

  lemma SnapshotVerified(h: Hashes, p: Profile, r: Round, u: Live, s: Ledger, e: Env, currentDaa: int)
    requires Spending(h, p, r, u, s, e, currentDaa)
    ensures P.Verified(h, p, SnapshotOf(h, p, r, u, currentDaa), s)
    ensures Describes(SnapshotOf(h, p, r, u, currentDaa), e)
    ensures RedeemOf(p, u) == ScriptOf(s, p) && u.ledger == LedgerBytes(s)
  {
    hide ValidLedger, LedgerBytes, RootPreimage, LedgerScript, NoZeroCovenant, Unmatched, ValueOf, P2sh, TemplatesBind;
    assert ValidInput(e.tx.inputs[0]);
  }

  // ---------------------------------------------------------------- the reader, in parts

  lemma InterpretIs(h: Hashes, p: Profile, x: P.Snapshot, s: Ledger, e: Env)
    requires P.VerifySnapshot(h, p, x) == Ok(s) && Decodable(s) && x.tip.index >= 0
    requires Matched(e) && e.utxos[0].value == x.value && ValidTransaction(e.tx)
    ensures var i := A.InterpretAccepted(h, p, x, e.tx, Some(ValuesOf(e.utxos)));
            var c := A.CheckedSpend(p, x, e.tx);
            && (i.Ok? ==> c.Ok?)
            && (c.Ok? ==>
                  var w, external := c.value, TotalIn(e.utxos) - x.value;
                  var step := A.ReadStep(h, p, x, s, w, e.tx, w.witnessFee, external);
                  && (i.Ok? <==> FeeMatches(e, w.witnessFee) && step.Ok?)
                  && (i.Ok? ==>
                        && i.value.spent == s && i.value.action == w.action && i.value.fee == w.witnessFee
                        && i.value.external == external && i.value.actorKey == w.actorKey
                        && i.value.next == step.value.0.next && i.value.terminal == step.value.0.terminal
                        && i.value.draw == step.value.0.draw && i.value.winner == step.value.0.winner))
  {
    hide P.VerifySnapshot, A.CheckedSpend, A.CheckedFunding, FeeMatches, A.ReadStep, ValidTransaction, TotalIn, Decodable,
      ValuesOf;
    var c := A.CheckedSpend(p, x, e.tx);
    if c.Ok? {
      FundingAgrees(x, e, c.value);
    }
  }

  // ---------------------------------------------------------------- the witness, read back

  lemma ReadLedger(p: Profile, sig: Bytes, s: Ledger, origin: Outpoint, w: A.SpendInfo)
    requires Decodable(s) && A.DecodeSpend(p, sig, Some(origin)) == Ok(w) && w.ledger == LedgerBytes(s)
    ensures w.to == PhaseModule(s.phase)
    ensures WitnessOf(p, sig, w.to, ScriptOf(s, p))
    ensures |sig| <= 250000 && Pushes(sig).Ok?
  {
    hide LedgerBytes, ScriptOf, Pushes, A.RedeemLedger, A.DecodeSpend, Decodable;
    SpendParts(p, sig, origin, w);
    RedeemBack(p, Pushes(sig).value[Arity(w.to) - 1], w.to, s);
  }

  lemma SpendParts(p: Profile, sig: Bytes, origin: Outpoint, w: A.SpendInfo)
    requires A.DecodeSpend(p, sig, Some(origin)) == Ok(w)
    ensures |sig| <= 250000 && Pushes(sig).Ok?
    ensures var items := Pushes(sig).value;
            && |items| == Arity(w.to)
            && items[Arity(w.to) - 2] == FrameOf(p, w.to).tag
            && |items[Arity(w.to) - 1]| > |FrameOf(p, w.to).tail|
            && A.RedeemLedger(p, items[Arity(w.to) - 1], w.to) == Ok(w.spent)
    ensures Decodable(w.spent) && w.ledger == LedgerBytes(w.spent)
  {
    hide LedgerBytes, ScriptOf, Pushes, A.RedeemLedger, ScriptNumber, A.ActionOf, DecodeLedger, Decodable, HasSuffix;
    var items := Pushes(sig).value;
    A.EncodedSpent(p, items[|items| - 1], w.to);
  }

  lemma RedeemBack(p: Profile, redeem: Bytes, m: Module, s: Ledger)
    requires Decodable(s) && |redeem| > |FrameOf(p, m).tail| && A.RedeemLedger(p, redeem, m).Ok?
    requires Decodable(A.RedeemLedger(p, redeem, m).value)
    requires LedgerBytes(A.RedeemLedger(p, redeem, m).value) == LedgerBytes(s)
    ensures redeem == ScriptOf(s, p) && m == PhaseModule(s.phase)
  {
    hide LedgerBytes, ScriptOf, ScriptPushes, DecodeLedger, Decodable;
    DecodeOfEncode(s);
    DecodeOfEncode(A.RedeemLedger(p, redeem, m).value);
  }

  lemma ReadOpenArgs(p: Profile, sig: Bytes, s: Ledger, origin: Outpoint, w: A.SpendInfo) returns (a: Open.Args)
    requires Decodable(s) && s.phase == OPEN
    requires A.DecodeSpend(p, sig, Some(origin)) == Ok(w) && w.ledger == LedgerBytes(s)
    ensures w.to == OpenModule && WitnessOf(p, sig, OpenModule, ScriptOf(s, p))
    ensures OpenArgs(Pushes(sig).value) == Val(a)
    ensures Outpoint(a.originTxId, a.originIndex) == origin && a.programTailBytes == |p.open.tail|
    ensures A.ActionOf(a.action) == Ok(w.action) && a.fee == w.witnessFee
    ensures w.actorKey == a.actorPk && w.data == a.data && w.nextTail == a.nextTail && |a.actorPk| == KEY_BYTES
  {
    hide LedgerBytes, ScriptOf, Pushes, A.ModuleOf, A.RedeemLedger, ScriptNumber, A.ActionOf, DecodeLedger;
    ReadLedger(p, sig, s, origin, w);
    a := OpenArgs(Pushes(sig).value).value;
  }

  lemma ReadSealedArgs(p: Profile, sig: Bytes, s: Ledger, origin: Outpoint, w: A.SpendInfo) returns (a: Sealed.Args)
    requires Decodable(s) && s.phase in {SEALED, REFUNDING}
    requires A.DecodeSpend(p, sig, Some(origin)) == Ok(w) && w.ledger == LedgerBytes(s)
    ensures w.to == PhaseModule(s.phase) && WitnessOf(p, sig, w.to, ScriptOf(s, p))
    ensures SealedArgs(Pushes(sig).value) == Val(a)
    ensures a.programTailBytes == |FrameOf(p, w.to).tail|
    ensures A.ActionOf(a.action) == Ok(w.action) && a.fee == w.witnessFee
    ensures w.actorKey == a.actorPk && w.data == a.data && w.nextTail == a.nextTail && |a.actorPk| == KEY_BYTES
  {
    hide LedgerBytes, ScriptOf, Pushes, A.ModuleOf, A.RedeemLedger, ScriptNumber, A.ActionOf, DecodeLedger;
    ReadLedger(p, sig, s, origin, w);
    a := SealedArgs(Pushes(sig).value).value;
  }

  // ---------------------------------------------------------------- agreement

  /** What the templates check and the reader does not look at: input 0 runs the covenant, its id is not zero and no other input
      carries it, input 0 authorises the successor and nothing else, and the node's accessor knows the draw's target. */
  predicate ReaderSkips(e: Env, id: Bytes, i: A.Interpretation) {
    && e.activeInput == 0
    && id != ZERO
    && CovInputs(e.utxos, id) == [0]
    && AuthOutputs(e.tx, 0) == (if i.next.Some? then [0] else [])
    && (i.draw.Some? ==> e.seqCommit(i.draw.value.target) == Some(i.draw.value.seqCommit))
  }

  /** The verdict and the interpretation tell the same story. */
  predicate Tells(v: Verdict, i: A.Interpretation) {
    match v
    case Continue(to, ledger) =>
      && i.terminal == None && i.next.Some? && Decodable(i.next.value)
      && to == PhaseModule(i.next.value.phase) && ledger == LedgerBytes(i.next.value)
    case Final(terminal) => i.next == None && i.terminal == Some(terminal)
  }

  function Read(h: Hashes, p: Profile, r: Round, u: Live, e: Env, currentDaa: int): Result<A.Interpretation>
    requires LedgerSized(u.ledger)
  {
    A.InterpretAccepted(h, p, SnapshotOf(h, p, r, u, currentDaa), e.tx, Some(ValuesOf(e.utxos)))
  }

  /** The reader accepts exactly the spends that the committed template accepts with these arguments. */
  ghost predicate SameVerdict(h: Hashes, p: Profile, r: Round, u: Live, e: Env, currentDaa: int, v: Run<Verdict>)
    requires LedgerSized(u.ledger)
  {
    var i := Read(h, p, r, u, e, currentDaa);
    && (v.Val? <==> i.Ok? && ReaderSkips(e, r.id, i.value))
    && (v.Val? ==> Tells(v.value, i.value))
  }

  lemma WitnessSpendsState(h: Hashes, p: Profile, r: Round, u: Live, s: Ledger, e: Env, currentDaa: int)
    requires Spending(h, p, r, u, s, e, currentDaa)
    requires WitnessOf(p, e.tx.inputs[0].signatureScript, u.to, RedeemOf(p, u))
    ensures SpendsState(h, p, e, s)
    ensures HasSuffix(e.tx.inputs[0].signatureScript, RedeemOf(p, u))
  {
    hide LedgerScript, P2sh, ValidLedger, LedgerBytes, Rooted, HasSuffix, Pushes, Unmatched, ValueOf, NodeRules,
      ValidTransaction, RootPreimage, TemplatesBind;
    ScriptLength(u.ledger, FrameOf(p, u.to).tail);
    LastItemIsSuffix(e.tx.inputs[0].signatureScript);
  }

  /** The origin that an OPEN witness names can only be the round's. */
  lemma OriginBound(h: Hashes, p: Profile, r: Round, u: Live, s: Ledger, e: Env, currentDaa: int, origin: Outpoint)
    requires Spending(h, p, r, u, s, e, currentDaa) && GoodOrigin(origin)
    ensures h.covenantId(RootPreimage(h, origin, RootScript(s, p))) == r.id <==> origin == r.origin
  {
    hide P2sh, ValidLedger, LedgerBytes, LedgerScript, NodeRules, ValidTransaction, RootPreimage, TemplatesBind, ValueOf;
    if h.covenantId(RootPreimage(h, origin, RootScript(s, p))) == r.id {
      RootPreimageNamesOrigin(h, origin, r.origin, RootScript(s, p), RootScript(s, p));
    }
  }

  lemma SpendFromOpenWitness(h: Hashes, p: Profile, r: Round, u: Live, s: Ledger, e: Env, currentDaa: int, a: Open.Args)
    requires Spending(h, p, r, u, s, e, currentDaa) && s.phase == OPEN
    requires WitnessOf(p, e.tx.inputs[0].signatureScript, OpenModule, ScriptOf(s, p))
    requires OpenArgs(Pushes(e.tx.inputs[0].signatureScript).value) == Val(a)
    requires OpenAccepts(h, p, e, s, a)
    ensures A.CheckedSpend(p, SnapshotOf(h, p, r, u, currentDaa), e.tx)
         == Ok(A.SpendInfo(A.ActionOf(a.action).value, OpenModule, s, LedgerBytes(s), r.origin, a.actorPk, a.data, a.nextTail,
                           a.fee))
  {
    hide P2sh, ValidLedger, LedgerBytes, LedgerScript, NoZeroCovenant, ValidTransaction, RootPreimage, TemplatesBind, ValueOf,
      Pushes, FeeMatches, Continues, CanBuy, Ordinary, NoFamily, LockedUntil, ScriptOf, A.DecodeSpend, OpenArgs, CovInputs,
      Unmatched;
    SnapshotVerified(h, p, r, u, s, e, currentDaa);
    OriginBound(h, p, r, u, s, e, currentDaa, Outpoint(a.originTxId, a.originIndex));
    ScriptOfLength(p, s);
    OpenWitnessLength(p, e.tx.inputs[0].signatureScript, ScriptOf(s, p), a);
    DecodeOpenSpend(p, e.tx.inputs[0].signatureScript, s, r.origin, a);
  }

  /** With the witness decoded, OPEN accepts exactly what the reader accepts. */
  lemma OpenSteps(h: Hashes, p: Profile, r: Round, u: Live, s: Ledger, e: Env, currentDaa: int, a: Open.Args, w: A.SpendInfo)
    requires Spending(h, p, r, u, s, e, currentDaa) && s.phase == OPEN
    requires A.CheckedSpend(p, SnapshotOf(h, p, r, u, currentDaa), e.tx) == Ok(w)
    requires w.to == OpenModule && A.ActionOf(a.action) == Ok(w.action) && w.witnessFee == a.fee
    requires w.actorKey == a.actorPk && w.data == a.data && w.nextTail == a.nextTail && |a.actorPk| == KEY_BYTES
    requires Outpoint(a.originTxId, a.originIndex) == r.origin && a.programTailBytes == |p.open.tail|
    ensures var i := Read(h, p, r, u, e, currentDaa);
            && (OpenAccepts(h, p, e, s, a) <==> i.Ok? && ReaderSkips(e, r.id, i.value))
            && (OpenAccepts(h, p, e, s, a) ==> Tells(OpenVerdict(s, a), i.value))
  {
    hide P2sh, ValidLedger, LedgerBytes, LedgerScript, NodeRules, ValidTransaction, RootPreimage, TemplatesBind, ValueOf,
      FeeMatches, BuyStep, CloseStep, A.ReadStep, A.InterpretAccepted, CovInputs, AuthOutputs, Bought, Closed, CanBuy,
      Unmatched, TotalIn, A.DecodeSpend, ScriptOf, PhaseModule, U32, DistinctInputs, Describes, P.Verified, P.VerifySnapshot;
    var x := SnapshotOf(h, p, r, u, currentDaa);
    SnapshotVerified(h, p, r, u, s, e, currentDaa);
    VerifiedParts(h, p, x, s, e);
    InterpretIs(h, p, x, s, e);
    RootedOrigin(h, p, r, u, s, e, currentDaa);
    if a.action == 1 {
      BuyAgrees(h, p, x, e, s, a, w, a.fee, TotalIn(e.utxos) - x.value);
      if BuyStep(h, p, e, s, a) {
        BuyTells(h, p, e, s, a);
      }
    } else {
      CloseAgrees(h, p, x, e, s, a, w, a.fee, TotalIn(e.utxos) - x.value);
      CloseTells(s);
    }
  }

  lemma VerifiedParts(h: Hashes, p: Profile, x: P.Snapshot, s: Ledger, e: Env)
    requires P.Verified(h, p, x, s) && Matched(e) && Describes(x, e)
    ensures P.VerifySnapshot(h, p, x) == Ok(s) && ValidLedger(s) && Decodable(s) && x.tip.index >= 0 && x.value == ValueOf(s)
    ensures e.utxos[0].value == x.value && e.utxos[0].covenantId == Some(x.covenantId)
  {
    hide P.VerifySnapshot, ValidLedger, LedgerBytes, ValueOf, RootPreimage, NodeRules;
    P.VerifyIsVerified(h, p, x, s);
  }

  lemma RootedOrigin(h: Hashes, p: Profile, r: Round, u: Live, s: Ledger, e: Env, currentDaa: int)
    requires Spending(h, p, r, u, s, e, currentDaa)
    ensures GoodOrigin(r.origin)
    ensures h.covenantId(RootPreimage(h, r.origin, RootScript(s, p))) == r.id
  {
    hide RootPreimage;
    OriginBound(h, p, r, u, s, e, currentDaa, r.origin);
  }

  lemma BuyTells(h: Hashes, p: Profile, e: Env, s: Ledger, a: Open.Args)
    requires Matched(e) && e.utxos[0].covenantId.Some? && BuyStep(h, p, e, s, a) && s.phase == OPEN
    ensures var n := Bought(s, U32(a.data, 0).value, a.actorPk);
            Decodable(n) && PhaseModule(n.phase) == OpenModule
  {
    hide ValidLedger, U32;
    var q := U32(a.data, 0).value;
    PurchaseKeepsValid(s, q, a.actorPk);
    ValidParts(Bought(s, q, a.actorPk));
  }

  lemma CloseTells(s: Ledger)
    requires ValidLedger(s) && s.phase == OPEN
    ensures s.sold != 0 ==> Decodable(Closed(s))
    ensures CloseVerdict(s) == if s.sold == 0 then Final(EMPTY)
                               else Continue(PhaseModule(Closed(s).phase), LedgerBytes(Closed(s)))
  {
    hide ValidLedger;
    ValidParts(s);
    if s.sold != 0 {
      ClosedValid(s);
      ValidParts(Closed(s));
    }
  }

  lemma SealedSteps(h: Hashes, p: Profile, r: Round, u: Live, s: Ledger, e: Env, currentDaa: int, a: Sealed.Args, w: A.SpendInfo)
    requires Spending(h, p, r, u, s, e, currentDaa) && s.phase == SEALED
    requires A.CheckedSpend(p, SnapshotOf(h, p, r, u, currentDaa), e.tx) == Ok(w)
    requires w.to == SealedModule && A.ActionOf(a.action) == Ok(w.action) && w.witnessFee == a.fee
    requires w.actorKey == a.actorPk && w.data == a.data && w.nextTail == a.nextTail && |a.actorPk| == KEY_BYTES
    requires a.programTailBytes == |p.sealed.tail|
    ensures ValidLedger(s)
    ensures var i := Read(h, p, r, u, e, currentDaa);
            && (SealedAccepts(h, p, e, s, a) <==> i.Ok? && ReaderSkips(e, r.id, i.value))
            && (SealedAccepts(h, p, e, s, a) ==> Tells(SealedVerdict(s, a), i.value))
  {
    hide P2sh, ValidLedger, LedgerBytes, LedgerScript, NodeRules, ValidTransaction, RootPreimage, TemplatesBind, ValueOf,
      FeeMatches, DrawStep, TimeoutStep, A.ReadStep, A.InterpretAccepted, CovInputs, AuthOutputs, Unmatched, TotalIn,
      A.DecodeSpend, ScriptOf, DistinctInputs, Describes, P.Verified, P.VerifySnapshot, ReaderDraws, Draws.TargetSeq;
    var x := SnapshotOf(h, p, r, u, currentDaa);
    SnapshotVerified(h, p, r, u, s, e, currentDaa);
    VerifiedParts(h, p, x, s, e);
    InterpretIs(h, p, x, s, e);
    SealedSold(s);
    if a.action == 4 {
      DrawAgrees(h, p, x, e, s, a, w, TotalIn(e.utxos) - x.value);
    } else {
      TimeoutAgrees(h, p, x, e, s, a, w, a.fee, TotalIn(e.utxos) - x.value);
      TimedOutValid(s);
      ValidParts(s.(phase := REFUNDING));
    }
  }

  lemma RefundingSteps(h: Hashes, p: Profile, r: Round, u: Live, s: Ledger, e: Env, currentDaa: int, a: Sealed.Args, w: A.SpendInfo)
    requires Spending(h, p, r, u, s, e, currentDaa) && s.phase == REFUNDING
    requires A.CheckedSpend(p, SnapshotOf(h, p, r, u, currentDaa), e.tx) == Ok(w)
    requires w.to == RefundingModule && A.ActionOf(a.action) == Ok(w.action) && w.witnessFee == a.fee
    requires w.actorKey == a.actorPk && w.data == a.data && w.nextTail == a.nextTail && |a.actorPk| == KEY_BYTES
    requires a.programTailBytes == |p.refunding.tail|
    ensures ValidLedger(s)
    ensures var i := Read(h, p, r, u, e, currentDaa);
            && (RefundingAccepts(h, p, e, s, a) <==> i.Ok? && ReaderSkips(e, r.id, i.value))
            && (RefundingAccepts(h, p, e, s, a) ==> Tells(RefundVerdict(s), i.value))
  {
    hide P2sh, ValidLedger, LedgerBytes, LedgerScript, NodeRules, ValidTransaction, RootPreimage, TemplatesBind, ValueOf,
      FeeMatches, RefundStep, A.ReadStep, A.InterpretAccepted, CovInputs, AuthOutputs, Unmatched, TotalIn,
      A.DecodeSpend, ScriptOf, DistinctInputs, Describes, P.Verified, P.VerifySnapshot, BatchSize, IsLast, Decodable,
      BatchGross, Pool, NoFamily, Ordinary;
    var x := SnapshotOf(h, p, r, u, currentDaa);
    SnapshotVerified(h, p, r, u, s, e, currentDaa);
    VerifiedParts(h, p, x, s, e);
    InterpretIs(h, p, x, s, e);
    RefundAgrees(h, p, x, e, s, a, w);
    if !IsLast(s) {
      AdvancedValid(s);
      ValidParts(s.(cursor := s.cursor + BatchSize(s)));
    }
  }

  /** The witness of `e` names the template of `s` and an action that its phase allows. */
  predicate SealedWitness(p: Profile, s: Ledger, e: Env, a: Sealed.Args)
    requires Matched(e) && Decodable(s)
  {
    && PhaseModule(s.phase) != OpenModule
    && WitnessOf(p, e.tx.inputs[0].signatureScript, PhaseModule(s.phase), ScriptOf(s, p))
    && SealedArgs(Pushes(e.tx.inputs[0].signatureScript).value) == Val(a)
    && EntryOk(e, P.OutputLimit(PhaseModule(s.phase)), a.actorPk) && a.programTailBytes == |TailOf(p, s)|
    && a.action in (if s.phase == SEALED then {4, 9} else {10})
    && |a.nextTail| <= 65535 && |a.data| <= 244
  }

  lemma SpendFromSealedWitness(h: Hashes, p: Profile, r: Round, u: Live, s: Ledger, e: Env, currentDaa: int, a: Sealed.Args,
                               action: P.Action)
    requires Spending(h, p, r, u, s, e, currentDaa) && s.phase in {SEALED, REFUNDING}
    requires SealedWitness(p, s, e, a) && A.ActionOf(a.action) == Ok(action)
    ensures A.CheckedSpend(p, SnapshotOf(h, p, r, u, currentDaa), e.tx)
         == Ok(A.SpendInfo(action, PhaseModule(s.phase), s, LedgerBytes(s), r.origin, a.actorPk, a.data, a.nextTail, a.fee))
  {
    hide P2sh, ValidLedger, LedgerBytes, LedgerScript, NoZeroCovenant, ValidTransaction, RootPreimage, TemplatesBind, ValueOf,
      Pushes, ScriptOf, A.DecodeSpend, SealedArgs, CovInputs, Unmatched, NodeRules, Rooted, P.Verified, WitnessOf,
      DistinctInputs, A.ActionOf;
    ActionKnown(a.action);
    NodeDistinct(e, currentDaa);
    SnapshotVerified(h, p, r, u, s, e, currentDaa);
    RootedOrigin(h, p, r, u, s, e, currentDaa);
    ScriptOfLength(p, s);
    SealedWitnessLength(p, e.tx.inputs[0].signatureScript, PhaseModule(s.phase), ScriptOf(s, p), a);
    DecodeSealedSpend(p, e.tx.inputs[0].signatureScript, s, r.origin, a);
  }

  lemma ActionKnown(n: int)
    requires n in {4, 9, 10}
    ensures A.ActionOf(n).Ok?
    ensures A.ActionOf(n).value == if n == 4 then P.DRAW_AND_PAY else if n == 9 then P.TIMEOUT_REFUND else P.REFUND
  {
  }

  lemma NodeDistinct(e: Env, currentDaa: int)
    requires Matched(e) && NodeRules(e, currentDaa)
    ensures DistinctInputs(e.tx)
  {
  }

  // ---------------------------------------------------------------- the theorem

  /** An execution that accepts is an execution of the committed template. */
  lemma AcceptedIsExecuted(h: Hashes, p: Profile, r: Round, u: Live, s: Ledger, e: Env, currentDaa: int, v: Verdict)
    requires Spending(h, p, r, u, s, e, currentDaa)
    ensures AcceptedSpend(h, p, r, u, e, v) <==> Execute(h, p, e, u.to, u.ledger) == Val(v)
  {
    hide LedgerScript, P2sh, ValidLedger, LedgerBytes, Rooted, ValueOf, Unmatched, NodeRules, ValidTransaction, RootPreimage,
      TemplatesBind, Execute;
    if AcceptedSpend(h, p, r, u, e, v) {
      var m: Module, ledger: Bytes :| Execute(h, p, e, m, ledger) == Val(v);
      OnlyCommittedRuns(h, p, r, u, e, m, ledger);
    }
  }

  lemma OpenAgreement(h: Hashes, p: Profile, r: Round, u: Live, s: Ledger, e: Env, currentDaa: int)
    requires Spending(h, p, r, u, s, e, currentDaa) && s.phase == OPEN
    ensures SameVerdict(h, p, r, u, e, currentDaa, Execute(h, p, e, OpenModule, u.ledger))
  {
    hide LedgerScript, P2sh, ValidLedger, LedgerBytes, ValueOf, Unmatched, NodeRules, ValidTransaction, RootPreimage,
      TemplatesBind, Open.Spend, OpenAccepts, Pushes, OpenArgs, A.InterpretAccepted, ReaderSkips, A.CheckedSpend, Tells,
      WitnessOf, ScriptOf, HasSuffix, Rooted, OpenVerdict;
    var v := Execute(h, p, e, OpenModule, u.ledger);
    var i := Read(h, p, r, u, e, currentDaa);
    var sig := e.tx.inputs[0].signatureScript;
    SnapshotVerified(h, p, r, u, s, e, currentDaa);
    if v.Val? {
      var a := OpenExecuted(h, p, e, u.ledger);
      WitnessSpendsState(h, p, r, u, s, e, currentDaa);
      OpenSpendIs(h, p, e, s, a);
      SpendFromOpenWitness(h, p, r, u, s, e, currentDaa, a);
      OpenAcceptsParts(h, p, r, u, s, e, currentDaa, a);
      OpenSteps(h, p, r, u, s, e, currentDaa, a, A.CheckedSpend(p, SnapshotOf(h, p, r, u, currentDaa), e.tx).value);
    }
    if i.Ok? && ReaderSkips(e, r.id, i.value) {
      var w := ReadSpend(h, p, r, u, s, e, currentDaa);
      var a := ReadOpenArgs(p, sig, s, r.origin, w);
      WitnessSpendsState(h, p, r, u, s, e, currentDaa);
      OpenSteps(h, p, r, u, s, e, currentDaa, a, w);
      OpenSpendIs(h, p, e, s, a);
      OpenRuns(h, p, e, u.ledger, a);
    }
  }

  lemma OpenAcceptsParts(h: Hashes, p: Profile, r: Round, u: Live, s: Ledger, e: Env, currentDaa: int, a: Open.Args)
    requires Spending(h, p, r, u, s, e, currentDaa) && OpenAccepts(h, p, e, s, a)
    ensures A.ActionOf(a.action).Ok? && |a.actorPk| == KEY_BYTES && a.programTailBytes == |p.open.tail|
    ensures Outpoint(a.originTxId, a.originIndex) == r.origin
  {
    hide BuyStep, CloseStep, FeeMatches, RootPreimage, CovInputs, RootScript;
    OriginBound(h, p, r, u, s, e, currentDaa, Outpoint(a.originTxId, a.originIndex));
  }

  /** The witness that an accepting reader decoded. */
  lemma ReadSpend(h: Hashes, p: Profile, r: Round, u: Live, s: Ledger, e: Env, currentDaa: int) returns (w: A.SpendInfo)
    requires Spending(h, p, r, u, s, e, currentDaa) && Read(h, p, r, u, e, currentDaa).Ok?
    ensures A.CheckedSpend(p, SnapshotOf(h, p, r, u, currentDaa), e.tx) == Ok(w)
    ensures A.DecodeSpend(p, e.tx.inputs[0].signatureScript, Some(r.origin)) == Ok(w)
    ensures w.ledger == LedgerBytes(s)
  {
    hide A.DecodeSpend, P.VerifySnapshot, A.ReadStep, A.CheckedFunding, A.InterpretAccepted, ValidLedger, LedgerBytes,
      ValueOf, Unmatched, NodeRules, ValidTransaction, RootPreimage, TemplatesBind, Describes, P.Verified, DistinctInputs;
    var x := SnapshotOf(h, p, r, u, currentDaa);
    SnapshotVerified(h, p, r, u, s, e, currentDaa);
    VerifiedParts(h, p, x, s, e);
    InterpretIs(h, p, x, s, e);
    w := A.CheckedSpend(p, x, e.tx).value;
  }

  lemma OpenRuns(h: Hashes, p: Profile, e: Env, ledger: Bytes, a: Open.Args)
    requires Matched(e) && LedgerSized(ledger)
    requires WitnessOf(p, e.tx.inputs[0].signatureScript, OpenModule, LedgerScript(ledger, p.open.tail))
    requires e.utxos[0].spk == P2sh(h.blake2b(LedgerScript(ledger, p.open.tail)))
    requires OpenArgs(Pushes(e.tx.inputs[0].signatureScript).value) == Val(a)
    ensures Execute(h, p, e, OpenModule, ledger) == Open.Spend(h, p, e, ledger, a)
  {
    hide Open.Spend, OpenArgs, LedgerScript, P2sh, Pushes;
  }

  lemma SealedRuns(h: Hashes, p: Profile, e: Env, ledger: Bytes, a: Sealed.Args)
    requires Matched(e) && LedgerSized(ledger)
    requires WitnessOf(p, e.tx.inputs[0].signatureScript, SealedModule, LedgerScript(ledger, p.sealed.tail))
    requires e.utxos[0].spk == P2sh(h.blake2b(LedgerScript(ledger, p.sealed.tail)))
    requires SealedArgs(Pushes(e.tx.inputs[0].signatureScript).value) == Val(a)
    ensures Execute(h, p, e, SealedModule, ledger) == Sealed.Spend(h, p, e, ledger, a)
  {
    hide Sealed.Spend, SealedArgs, LedgerScript, P2sh, Pushes;
  }

  lemma RefundingRuns(h: Hashes, p: Profile, e: Env, ledger: Bytes, a: Sealed.Args)
    requires Matched(e) && LedgerSized(ledger)
    requires WitnessOf(p, e.tx.inputs[0].signatureScript, RefundingModule, LedgerScript(ledger, p.refunding.tail))
    requires e.utxos[0].spk == P2sh(h.blake2b(LedgerScript(ledger, p.refunding.tail)))
    requires SealedArgs(Pushes(e.tx.inputs[0].signatureScript).value) == Val(a)
    ensures Execute(h, p, e, RefundingModule, ledger) == Refunding.Spend(h, e, ledger, a)
  {
    hide Refunding.Spend, SealedArgs, LedgerScript, P2sh, Pushes;
  }

  lemma SealedAgreement(h: Hashes, p: Profile, r: Round, u: Live, s: Ledger, e: Env, currentDaa: int)
    requires Spending(h, p, r, u, s, e, currentDaa) && s.phase == SEALED
    ensures SameVerdict(h, p, r, u, e, currentDaa, Execute(h, p, e, SealedModule, u.ledger))
  {
    hide LedgerScript, P2sh, ValidLedger, LedgerBytes, ValueOf, Unmatched, NodeRules, ValidTransaction, RootPreimage,
      TemplatesBind, Sealed.Spend, SealedAccepts, Pushes, SealedArgs, A.InterpretAccepted, ReaderSkips, A.CheckedSpend, Tells,
      WitnessOf, ScriptOf, HasSuffix, Rooted, SealedVerdict, EntryOk;
    var v := Execute(h, p, e, SealedModule, u.ledger);
    var i := Read(h, p, r, u, e, currentDaa);
    var sig := e.tx.inputs[0].signatureScript;
    SnapshotVerified(h, p, r, u, s, e, currentDaa);
    if v.Val? {
      var a := SealedExecuted(h, p, e, u.ledger);
      WitnessSpendsState(h, p, r, u, s, e, currentDaa);
      SealedSpendIs(h, p, e, s, a);
      SealedAcceptsParts(h, p, e, s, a);
      ActionKnown(a.action);
      SpendFromSealedWitness(h, p, r, u, s, e, currentDaa, a, A.ActionOf(a.action).value);
      SealedSteps(h, p, r, u, s, e, currentDaa, a, A.CheckedSpend(p, SnapshotOf(h, p, r, u, currentDaa), e.tx).value);
    }
    if i.Ok? && ReaderSkips(e, r.id, i.value) {
      var w := ReadSpend(h, p, r, u, s, e, currentDaa);
      var a := ReadSealedArgs(p, sig, s, r.origin, w);
      WitnessSpendsState(h, p, r, u, s, e, currentDaa);
      SealedSteps(h, p, r, u, s, e, currentDaa, a, w);
      SealedSpendIs(h, p, e, s, a);
      SealedRuns(h, p, e, u.ledger, a);
    }
  }

  lemma SealedAcceptsParts(h: Hashes, p: Profile, e: Env, s: Ledger, a: Sealed.Args)
    requires Matched(e) && ValidLedger(s) && SealedAccepts(h, p, e, s, a)
    ensures EntryOk(e, P.OutputLimit(SealedModule), a.actorPk) && a.programTailBytes == |p.sealed.tail|
    ensures |a.actorPk| == KEY_BYTES && a.action in {4, 9} && |a.nextTail| <= 65535 && |a.data| <= 244
  {
    hide OpeningOk, PayoutStep, FeeMatches, Continues, AgedBy, ValidLedger;
  }

  lemma RefundingAgreement(h: Hashes, p: Profile, r: Round, u: Live, s: Ledger, e: Env, currentDaa: int)
    requires Spending(h, p, r, u, s, e, currentDaa) && s.phase == REFUNDING
    ensures SameVerdict(h, p, r, u, e, currentDaa, Execute(h, p, e, RefundingModule, u.ledger))
  {
    hide LedgerScript, P2sh, ValidLedger, LedgerBytes, ValueOf, Unmatched, NodeRules, ValidTransaction, RootPreimage,
      TemplatesBind, Refunding.Spend, RefundingAccepts, Pushes, SealedArgs, A.InterpretAccepted, ReaderSkips, A.CheckedSpend,
      Tells, WitnessOf, ScriptOf, HasSuffix, Rooted, RefundVerdict, EntryOk;
    var v := Execute(h, p, e, RefundingModule, u.ledger);
    var i := Read(h, p, r, u, e, currentDaa);
    var sig := e.tx.inputs[0].signatureScript;
    SnapshotVerified(h, p, r, u, s, e, currentDaa);
    if v.Val? {
      var a := RefundingExecuted(h, p, e, u.ledger);
      WitnessSpendsState(h, p, r, u, s, e, currentDaa);
      RefundingSpendIs(h, p, e, s, a);
      RefundingAcceptsParts(h, p, e, s, a);
      ActionKnown(a.action);
      SpendFromSealedWitness(h, p, r, u, s, e, currentDaa, a, A.ActionOf(a.action).value);
      RefundingSteps(h, p, r, u, s, e, currentDaa, a, A.CheckedSpend(p, SnapshotOf(h, p, r, u, currentDaa), e.tx).value);
    }
    if i.Ok? && ReaderSkips(e, r.id, i.value) {
      var w := ReadSpend(h, p, r, u, s, e, currentDaa);
      var a := ReadSealedArgs(p, sig, s, r.origin, w);
      WitnessSpendsState(h, p, r, u, s, e, currentDaa);
      RefundingSteps(h, p, r, u, s, e, currentDaa, a, w);
      RefundingSpendIs(h, p, e, s, a);
      RefundingRuns(h, p, e, u.ledger, a);
    }
  }

  lemma RefundingAcceptsParts(h: Hashes, p: Profile, e: Env, s: Ledger, a: Sealed.Args)
    requires Matched(e) && ValidLedger(s) && s.phase == REFUNDING && RefundingAccepts(h, p, e, s, a)
    ensures EntryOk(e, P.OutputLimit(RefundingModule), a.actorPk) && a.programTailBytes == |p.refunding.tail|
    ensures |a.actorPk| == KEY_BYTES && a.action == 10 && a.nextTail == [] && a.data == []
  {
    hide RefundsAll, FeeMatches, Continues, Ordinary, ValidLedger, BatchSize, IsLast, Pool, BatchGross;
  }

  /** The node accepts `e` exactly when the reader accepts it and the facts that only the node can see hold; and then both
      name the same successor bytes and template, or the same terminal. */
  ghost predicate OneAccount(h: Hashes, p: Profile, r: Round, u: Live, e: Env, currentDaa: int) {
    && LedgerSized(u.ledger)
    && var i := Read(h, p, r, u, e, currentDaa);
    && ((exists v :: AcceptedSpend(h, p, r, u, e, v)) <==> i.Ok? && ReaderSkips(e, r.id, i.value))
    && (forall v | AcceptedSpend(h, p, r, u, e, v) :: Tells(v, i.value))
  }

  /** On every state output of a round, the templates and the reader agree in both directions: a spend is accepted by the
      node exactly when the reader accepts it and the facts that only the node can see hold; and then both name the same
      successor bytes and template, or the same terminal. */
  lemma ContractAndReaderAgree(h: Hashes, p: Profile, r: Round, u: Live, s: Ledger, e: Env, currentDaa: int)
    requires Spending(h, p, r, u, s, e, currentDaa)
    ensures OneAccount(h, p, r, u, e, currentDaa)
  {
    hide LedgerScript, P2sh, ValidLedger, LedgerBytes, ValueOf, Unmatched, NodeRules, ValidTransaction, RootPreimage,
      TemplatesBind, A.InterpretAccepted, ReaderSkips, Tells, Rooted, Execute, AcceptedSpend;
    PhaseOfValid(s);
    match u.to {
      case OpenModule => OpenAgreement(h, p, r, u, s, e, currentDaa);
      case SealedModule => SealedAgreement(h, p, r, u, s, e, currentDaa);
      case RefundingModule => RefundingAgreement(h, p, r, u, s, e, currentDaa);
    }
    var x := Execute(h, p, e, u.to, u.ledger);
    forall v: Verdict
      ensures AcceptedSpend(h, p, r, u, e, v) <==> x == Val(v)
    {
      AcceptedIsExecuted(h, p, r, u, s, e, currentDaa, v);
    }
    assert x.Val? ==> AcceptedSpend(h, p, r, u, e, x.value);
  }
}
