/** A whole spend of a round's state output: the witness as the node executes it, and each template's
    verdict on the encoding of a valid ledger. */
module Spends {
  import opened Results
  import opened Bytes
  import opened Layout
  import opened State
  import opened Directory
  import opened Scripts
  import opened Tx
  import opened Frames
  import opened Draws
  import opened Sil
  import opened LedgerEdits
  import opened ContractSteps
  import Open
  import Sealed
  import Refunding

  // ---------------------------------------------------------------- execution of a witness

  function IntArg(item: Bytes): Run<int> {
    match ScriptNumber(item)
    case Ok(n) => Val(n)
    case Err(_) => Abort
  }

  function OpenArgs(items: seq<Bytes>): Run<Open.Args>
    requires |items| == 10
  {
    var action :- IntArg(items[0]);
    var originIndex :- IntArg(items[2]);
    var tailBytes :- IntArg(items[3]);
    var fee :- IntArg(items[7]);
    Val(Open.Args(action, items[1], originIndex, tailBytes, items[4], items[5], items[6], fee))
  }

  function SealedArgs(items: seq<Bytes>): Run<Sealed.Args>
    requires |items| == 8
  {
    var action :- IntArg(items[0]);
    var tailBytes :- IntArg(items[1]);
    var fee :- IntArg(items[5]);
    Val(Sealed.Args(action, tailBytes, items[2], items[3], items[4], fee))
  }

  function Arity(m: Module): nat {
    if m == OpenModule then 10 else 8
  }

  /** The items of a witness whose redeem script is `script`, with the arity and dispatch tag of module `m`. */
  predicate WitnessOf(p: Profile, sig: Bytes, m: Module, script: Bytes) {
    && Pushes(sig).Ok?
    && var items := Pushes(sig).value;
    && |items| == Arity(m)
    && items[Arity(m) - 1] == script
    && items[Arity(m) - 2] == FrameOf(p, m).tag
  }

  /** Executing the template of module `m` with state `ledger` on the spend of input 0. */
  function Execute(h: Hashes, p: Profile, e: Env, m: Module, ledger: Bytes): Run<Verdict>
    requires Matched(e)
  {
    var sig := e.tx.inputs[0].signatureScript;
    var _ :- Require(LedgerSized(ledger));
    var script := LedgerScript(ledger, FrameOf(p, m).tail);
    var _ :- Require(WitnessOf(p, sig, m, script));
    var _ :- Require(e.utxos[0].spk == P2sh(h.blake2b(script)));
    var items := Pushes(sig).value;
    match m
    case OpenModule =>
      var a :- OpenArgs(items);
      Open.Spend(h, p, e, ledger, a)
    case SealedModule =>
      var a :- SealedArgs(items);
      Sealed.Spend(h, p, e, ledger, a)
    case RefundingModule =>
      var a :- SealedArgs(items);
      Refunding.Spend(h, e, ledger, a)
  }

  /** The arguments with which an accepting execution ran OPEN. */
  lemma OpenExecuted(h: Hashes, p: Profile, e: Env, ledger: Bytes) returns (a: Open.Args)
    requires Matched(e) && Execute(h, p, e, OpenModule, ledger).Val?
    ensures LedgerSized(ledger)
    ensures WitnessOf(p, e.tx.inputs[0].signatureScript, OpenModule, LedgerScript(ledger, p.open.tail))
    ensures OpenArgs(Pushes(e.tx.inputs[0].signatureScript).value) == Val(a)
    ensures Open.Spend(h, p, e, ledger, a) == Execute(h, p, e, OpenModule, ledger)
  {
    hide Open.Spend, OpenArgs, LedgerScript, P2sh, Pushes;
    a := OpenArgs(Pushes(e.tx.inputs[0].signatureScript).value).value;
  }

  lemma SealedExecuted(h: Hashes, p: Profile, e: Env, ledger: Bytes) returns (a: Sealed.Args)
    requires Matched(e) && Execute(h, p, e, SealedModule, ledger).Val?
    ensures LedgerSized(ledger)
    ensures WitnessOf(p, e.tx.inputs[0].signatureScript, SealedModule, LedgerScript(ledger, p.sealed.tail))
    ensures SealedArgs(Pushes(e.tx.inputs[0].signatureScript).value) == Val(a)
    ensures Sealed.Spend(h, p, e, ledger, a) == Execute(h, p, e, SealedModule, ledger)
  {
    hide Sealed.Spend, SealedArgs, LedgerScript, P2sh, Pushes;
    a := SealedArgs(Pushes(e.tx.inputs[0].signatureScript).value).value;
  }

  lemma RefundingExecuted(h: Hashes, p: Profile, e: Env, ledger: Bytes) returns (a: Sealed.Args)
    requires Matched(e) && Execute(h, p, e, RefundingModule, ledger).Val?
    ensures LedgerSized(ledger)
    ensures WitnessOf(p, e.tx.inputs[0].signatureScript, RefundingModule, LedgerScript(ledger, p.refunding.tail))
    ensures SealedArgs(Pushes(e.tx.inputs[0].signatureScript).value) == Val(a)
    ensures Refunding.Spend(h, e, ledger, a) == Execute(h, p, e, RefundingModule, ledger)
  {
    hide Refunding.Spend, SealedArgs, LedgerScript, P2sh, Pushes;
    a := SealedArgs(Pushes(e.tx.inputs[0].signatureScript).value).value;
  }

  // ---------------------------------------------------------------- the shared entry checks

  predicate EntryOk(e: Env, outputLimit: int, actorPk: Bytes)
    requires Matched(e)
  {
    && e.activeInput == 0 && e.tx.version == 1
    && |e.tx.inputs| <= INPUT_LIMIT
    && 1 <= |e.tx.outputs| <= outputLimit
    && |actorPk| == KEY_BYTES
    && e.utxos[0].covenantId.Some?
    && e.utxos[0].covenantId.value != ZERO
    && CovInputs(e.utxos, e.utxos[0].covenantId.value) == [0]
  }

  /** The state output of `s`, hash-bound to its script, is what input 0 spends. */
  ghost predicate SpendsState(h: Hashes, p: Profile, e: Env, s: Ledger) {
    && Matched(e)
    && ValidLedger(s)
    && Decodable(s)
    && e.utxos[0].spk == P2sh(h.blake2b(ScriptOf(s, p)))
    && Unmatched(h.blake2b, ScriptOf(s, p))
    && HasSuffix(e.tx.inputs[0].signatureScript, ScriptOf(s, p))
  }

  function TailOf(p: Profile, s: Ledger): Bytes {
    FrameOf(p, PhaseModule(s.phase)).tail
  }

  /** The state script is the ledger's push under its pinned tail. */
  lemma ScriptIs(p: Profile, s: Ledger)
    requires Decodable(s)
    ensures Fits(s) && LedgerSized(LedgerBytes(s)) && ScriptOf(s, p) == LedgerScript(LedgerBytes(s), TailOf(p, s))
    ensures 0 < |TailOf(p, s)| <= 1_000_000 && TailOf(p, s)[0] == 0x6c
  {
    hide LedgerBytes, LedgerScript;
    LedgerSlices(s);
  }

  /** The tail that the witness names by its length can only be the template's own. */
  lemma AuthenticatedTailIs(h: Hashes, p: Profile, e: Env, s: Ledger, n: int)
    requires SpendsState(h, p, e, s)
    ensures AuthenticatedTail(h, e, LedgerBytes(s), n)
         == if n == |TailOf(p, s)| then Val(TailOf(p, s)) else Abort
  {
    hide LedgerBytes, ValidLedger, LedgerScript, ScriptOf, TailOf, P2sh, Unmatched, HasSuffix, AuthenticatedTail, Pinned, Fits,
      LedgerSized;
    ScriptIs(p, s);
    SuffixOfScript(e.tx.inputs[0].signatureScript, LedgerBytes(s), TailOf(p, s));
    WitnessTail(h, e, LedgerBytes(s), TailOf(p, s), n);
  }

  lemma WitnessTail(h: Hashes, e: Env, ledger: Bytes, tail: Bytes, n: int)
    requires Matched(e) && LedgerSized(ledger)
    requires 0 < |tail| <= 1_000_000 && tail[0] == 0x6c
    requires |tail| < |e.tx.inputs[0].signatureScript|
    requires e.tx.inputs[0].signatureScript[|e.tx.inputs[0].signatureScript| - |tail|..] == tail
    requires e.utxos[0].spk == P2sh(h.blake2b(LedgerScript(ledger, tail)))
    requires Unmatched(h.blake2b, LedgerScript(ledger, tail))
    ensures AuthenticatedTail(h, e, ledger, n) == if n == |tail| then Val(tail) else Abort
  {
    hide ScriptFor, LedgerScript, P2sh, Unmatched;
    var sig := e.tx.inputs[0].signatureScript;
    if 0 < n < |sig| {
      var t := sig[|sig| - n..];
      ScriptForIsLedgerScript(ledger, t);
      TailBound(h, ledger, t, tail);
      assert n != |tail| ==> t != tail;
    }
  }

  /** The redeem-script hash leaves no second tail for the same ledger. */
  lemma TailBound(h: Hashes, ledger: Bytes, t: Bytes, tail: Bytes)
    requires LedgerSized(ledger) && Unmatched(h.blake2b, LedgerScript(ledger, tail))
    ensures P2sh(h.blake2b(LedgerScript(ledger, t))) == P2sh(h.blake2b(LedgerScript(ledger, tail))) <==> t == tail
  {
    hide LedgerScript, P2sh;
    if P2sh(h.blake2b(LedgerScript(ledger, t))) == P2sh(h.blake2b(LedgerScript(ledger, tail))) {
      P2shInjective(h.blake2b(LedgerScript(ledger, t)), h.blake2b(LedgerScript(ledger, tail)));
      LedgerScriptInjective(ledger, t, ledger, tail);
    }
  }

  lemma SuffixOfScript(sig: Bytes, ledger: Bytes, tail: Bytes)
    requires LedgerSized(ledger) && HasSuffix(sig, LedgerScript(ledger, tail))
    ensures |tail| < |sig| && sig[|sig| - |tail|..] == tail
  {
    var script := LedgerScript(ledger, tail);
    assert sig[|sig| - |tail|..] == sig[|sig| - |script|..][|script| - |tail|..];
  }

  lemma EntryIs(h: Hashes, p: Profile, e: Env, s: Ledger, outputLimit: int, n: int, actorPk: Bytes)
    requires SpendsState(h, p, e, s)
    ensures Entry(h, e, LedgerBytes(s), outputLimit, n, actorPk)
         == if EntryOk(e, outputLimit, actorPk) && n == |TailOf(p, s)| then Val(TailOf(p, s)) else Abort
  {
    hide LedgerBytes, AuthenticatedTail, ValidLedger, ScriptOf, CovInputs, HasSuffix, Unmatched, P2sh, TailOf;
    AuthenticatedTailIs(h, p, e, s, n);
    LedgerSlices(s);
  }

  // ---------------------------------------------------------------- OPEN

  predicate GoodOrigin(o: Outpoint) {
    |o.transactionId| == 32 && o.transactionId != ZERO && 0 <= o.index <= 0x7fff_ffff
  }

  lemma NewOpenDecodable(s: Ledger)
    requires Decodable(s)
    ensures Decodable(NewOpen(s.ownerKey, s.config))
  {
  }

  /** The covenant id that OPEN recomputes is the client's root id. */
  lemma CheckRootIs(h: Hashes, p: Profile, e: Env, s: Ledger, a: Open.Args)
    requires Matched(e) && e.utxos[0].covenantId.Some? && Decodable(s)
    ensures |LedgerBytes(s)| >= HEADER_BYTES
    ensures Open.CheckRoot(h, e, LedgerBytes(s), a, p.open.tail).Val?
       <==> && GoodOrigin(Outpoint(a.originTxId, a.originIndex))
            && h.covenantId(RootPreimage(h, Outpoint(a.originTxId, a.originIndex), RootScript(s, p)))
               == e.utxos[0].covenantId.value
  {
    hide LedgerBytes, ScriptFor, LedgerScript, Le;
    var g := NewOpen(s.ownerKey, s.config);
    LedgerSlices(s);
    LedgerSlices(g);
    GenesisEdit(s);
    ScriptForIsLedgerScript(LedgerBytes(g), p.open.tail);
    if |a.originTxId| == 32 && 0 <= a.originIndex <= 0x7fff_ffff {
      RootPreimageSpelled(h, a.originTxId, a.originIndex, RootScript(s, p));
    }
  }

  lemma RootPreimageSpelled(h: Hashes, txId: Bytes, index: nat, script: Bytes)
    requires |txId| == 32 && index <= 0xffff_ffff
    ensures txId + Le(index, 4) + [1, 0, 0, 0, 0, 0, 0, 0] + [0, 0, 0, 0] + Le(DEPOSIT, 8) + Le(0, 2)
            + [0x23, 0, 0, 0, 0, 0, 0, 0] + P2sh(h.blake2b(script)).script
         == RootPreimage(h, Outpoint(txId, index), script)
  {
    hide P2sh;
    ZeroDigits();
    Reassociate(txId, Le(index, 4), Le(1, 8), Le(0, 4), Le(DEPOSIT, 8), Le(0, 2), Le(35, 8),
                P2sh(h.blake2b(script)).script);
  }

  lemma Reassociate(a: Bytes, b: Bytes, c: Bytes, d: Bytes, f: Bytes, g: Bytes, i: Bytes, j: Bytes)
    ensures a + b + c + d + f + g + i + j == a + b + c + (d + f + g + i + j)
  {
    var x := a + b + c;
    assert x + d + f == x + (d + f);
    assert x + (d + f) + g == x + (d + f + g);
    assert x + (d + f + g) + i == x + (d + f + g + i);
    assert x + (d + f + g + i) + j == x + (d + f + g + i + j);
  }

  /** What OPEN accepts, over the ledger. */
  ghost predicate OpenAccepts(h: Hashes, p: Profile, e: Env, s: Ledger, a: Open.Args)
    requires Matched(e)
  {
    && EntryOk(e, 2, a.actorPk)
    && a.programTailBytes == |p.open.tail|
    && Decodable(s)
    && GoodOrigin(Outpoint(a.originTxId, a.originIndex))
    && h.covenantId(RootPreimage(h, Outpoint(a.originTxId, a.originIndex), RootScript(s, p)))
       == e.utxos[0].covenantId.value
    && FeeMatches(e, a.fee)
    && (a.action == 1 || a.action == 2)
    && (a.action == 1 ==> BuyStep(h, p, e, s, a))
    && (a.action == 2 ==> CloseStep(h, p, e, s, a))
  }

  function OpenVerdict(s: Ledger, a: Open.Args): Verdict
    requires ValidLedger(s) && s.phase == OPEN
    requires a.action == 1 ==> U32(a.data, 0).Val? && CanBuy(s, U32(a.data, 0).value, a.actorPk)
  {
    if a.action == 1 then
      var next := Bought(s, U32(a.data, 0).value, a.actorPk);
      PurchaseKeepsValid(s, U32(a.data, 0).value, a.actorPk);
      Continue(OpenModule, LedgerBytes(next))
    else CloseVerdict(s)
  }

  lemma OpenSpendIs(h: Hashes, p: Profile, e: Env, s: Ledger, a: Open.Args)
    requires SpendsState(h, p, e, s) && s.phase == OPEN && e.utxos[0].value == ValueOf(s)
    requires TemplatesBind(h, p)
    ensures Open.Spend(h, p, e, LedgerBytes(s), a).Val? <==> OpenAccepts(h, p, e, s, a)
    ensures OpenAccepts(h, p, e, s, a) ==> Open.Spend(h, p, e, LedgerBytes(s), a) == Val(OpenVerdict(s, a))
  {
    hide LedgerBytes, Entry, Open.CheckRoot, Open.CheckLedger, Open.Buy, Open.Close, FeeMatches, ValidLedger, ValueOf,
      CloseVerdict, CanBuy, CloseStep, Continues, ScriptOf, Unmatched, RootPreimage, RootScript;
    EntryIs(h, p, e, s, 2, a.programTailBytes, a.actorPk);
    if EntryOk(e, 2, a.actorPk) {
      CheckRootIs(h, p, e, s, a);
      OpenCheckPasses(s);
      BuyCharacterised(h, p, e, s, a);
      CloseCharacterised(h, p, e, s, a);
    }
  }

  // ---------------------------------------------------------------- SEALED

  /** The checks on a draw's opening. */
  predicate OpeningOk(h: Hashes, e: Env, proof: Bytes)
    requires Matched(e)
  {
    && |proof| == OPENING_BYTES
    && 0 <= e.utxos[0].daa < DAA_LIMIT - TIMEOUT_DELAY
    && AgedBy(e, DRAW_DELAY)
    && U63(proof, 224).Val? && U63(proof, 104).Val? && U63(proof, 112).Val? && U63(proof, 232).Val?
    && U63(proof, 96).Val? && U63(proof, 216).Val?
    && U63(proof, 224).value < e.utxos[0].daa + DRAW_DELAY <= U63(proof, 104).value < DAA_LIMIT
    && U63(proof, 112).value > U63(proof, 232).value
    && e.seqCommit(proof[..32]) == Some(TargetSeq(h, proof))
    && e.tx.inputs[0].previousOutpoint.index >= 0
  }

  function SeedOf(h: Hashes, e: Env, s: Ledger, proof: Bytes): Digest
    requires Matched(e) && e.utxos[0].covenantId.Some? && OpeningOk(h, e, proof) && Decodable(s)
  {
    LedgerSlices(s);
    Seed(h, e.utxos[0].covenantId.value, e.tx.inputs[0].previousOutpoint, LedgerBytes(s),
         e.utxos[0].daa + DRAW_DELAY, proof)
  }

  /** The template's sample and limit are the client's. */
  lemma TemplateSample(h: Hashes, sold: nat, seed: Digest)
    requires sold > 0
    ensures Sealed.Sample(h, seed) == SampleValue(h, seed) && Sealed.Limit(sold) == Limit(sold)
  {
    var digest := h.blake2b(SAMPLE_TAG + seed + Zeros(8));
    assert Zeros(8) == [0, 0, 0, 0, 0, 0, 0, 0];
    ZeroOnTop(digest[..7]);
  }

  /** The template's target commitment is the client's. */
  lemma TargetCommitment(h: Hashes, proof: Bytes)
    requires |proof| == OPENING_BYTES
    ensures Sealed.OpenSeq(h, proof, 32, Sealed.OpenSeq(h, proof, 152, proof[120..152])) == TargetSeq(h, proof)
  {
  }

  lemma ZeroOnTop(b: Bytes)
    ensures FromLe(b + [0]) == FromLe(b)
  {
    FromLeConcat(b, [0]);
  }

  lemma DrawSeedIs(h: Hashes, e: Env, s: Ledger, proof: Bytes)
    requires Matched(e) && e.utxos[0].covenantId.Some? && Decodable(s)
    ensures |LedgerBytes(s)| >= HEADER_BYTES
    ensures Sealed.DrawSeed(h, e, LedgerBytes(s), proof)
         == if OpeningOk(h, e, proof) then Val(SeedOf(h, e, s, proof)) else Abort
  {
    hide LedgerBytes, U63, AgedBy, TargetSeq, Sealed.OpenSeq;
    LedgerSlices(s);
    if |proof| == OPENING_BYTES {
      TargetCommitment(h, proof);
    }
  }

  predicate DrawStep(h: Hashes, e: Env, s: Ledger, a: Sealed.Args)
    requires Matched(e) && e.utxos[0].covenantId.Some? && ValidLedger(s) && Decodable(s) && s.sold > 0
  {
    && a.nextTail == []
    && |a.data| == 244
    && OpeningOk(h, e, a.data[..240])
    && U32(a.data, 240).Val?
    && var value := SampleValue(h, SeedOf(h, e, s, a.data[..240]));
    && value < Limit(s.sold)
    && PayoutStep(e, s, value % s.sold, U32(a.data, 240).value, a.actorPk, a.fee)
  }

  lemma SealedSold(s: Ledger)
    requires ValidLedger(s) && s.phase == SEALED
    ensures s.sold >= 3 && s.purchaseCount > 0
  {
    hide StartAt;
  }

  lemma DrawIs(h: Hashes, e: Env, s: Ledger, a: Sealed.Args)
    requires Matched(e) && e.utxos[0].covenantId.Some? && ValidLedger(s) && s.phase == SEALED
    ensures Decodable(s) && s.sold > 0 && |LedgerBytes(s)| >= HEADER_BYTES
    ensures Sealed.Draw(h, e, LedgerBytes(s), a)
         == if DrawStep(h, e, s, a) then Val(Final(PAID)) else Abort
  {
    hide LedgerBytes, U32, U63, ValidLedger, Sealed.DrawSeed, Sealed.Payout, OpeningOk, SeedOf, SampleValue, Limit, Sealed.Sample,
      Sealed.Limit, PayoutStep;
    ValidParts(s);
    SealedSold(s);
    LedgerReads(s);
    if |a.data| == 244 {
      DrawSeedIs(h, e, s, a.data[..240]);
      if OpeningOk(h, e, a.data[..240]) && U32(a.data, 240).Val? {
        var value := SampleValue(h, SeedOf(h, e, s, a.data[..240]));
        TemplateSample(h, s.sold, SeedOf(h, e, s, a.data[..240]));
        PayoutCharacterised(e, s, value % s.sold, U32(a.data, 240).value, a.actorPk, a.fee);
      }
    }
  }

  ghost predicate SealedAccepts(h: Hashes, p: Profile, e: Env, s: Ledger, a: Sealed.Args)
    requires Matched(e) && ValidLedger(s)
  {
    && EntryOk(e, 3, a.actorPk)
    && a.programTailBytes == |p.sealed.tail|
    && FeeMatches(e, a.fee)
    && (a.action == 4 || a.action == 9)
    && (a.action == 4 ==> Decodable(s) && s.sold > 0 && DrawStep(h, e, s, a))
    && (a.action == 9 ==> TimeoutStep(h, p, e, s, a))
  }

  function SealedVerdict(s: Ledger, a: Sealed.Args): Verdict
    requires ValidLedger(s) && s.phase == SEALED
  {
    if a.action == 4 then Final(PAID) else TimeoutVerdict(s)
  }

  lemma SealedSpendIs(h: Hashes, p: Profile, e: Env, s: Ledger, a: Sealed.Args)
    requires SpendsState(h, p, e, s) && s.phase == SEALED && e.utxos[0].value == ValueOf(s)
    requires TemplatesBind(h, p)
    ensures Sealed.Spend(h, p, e, LedgerBytes(s), a).Val? <==> SealedAccepts(h, p, e, s, a)
    ensures SealedAccepts(h, p, e, s, a) ==> Sealed.Spend(h, p, e, LedgerBytes(s), a) == Val(SealedVerdict(s, a))
  {
    hide LedgerBytes, Entry, Sealed.CheckLedger, Sealed.Draw, Sealed.Timeout, FeeMatches, ValidLedger, ValueOf,
      DrawStep, TimeoutStep, ScriptOf, Unmatched;
    EntryIs(h, p, e, s, 3, a.programTailBytes, a.actorPk);
    if EntryOk(e, 3, a.actorPk) {
      SealedCheckIs(e, s);
      DrawIs(h, e, s, a);
      ValidParts(s);
      TimeoutCharacterised(h, p, e, s, a);
    }
  }

  // ---------------------------------------------------------------- REFUNDING

  ghost predicate RefundingAccepts(h: Hashes, p: Profile, e: Env, s: Ledger, a: Sealed.Args)
    requires Matched(e) && ValidLedger(s) && s.phase == REFUNDING
  {
    && EntryOk(e, 34, a.actorPk)
    && a.programTailBytes == |p.refunding.tail|
    && FeeMatches(e, a.fee)
    && a.action == 10
    && RefundStep(h, p, e, s, a)
  }

  lemma RefundingSpendIs(h: Hashes, p: Profile, e: Env, s: Ledger, a: Sealed.Args)
    requires SpendsState(h, p, e, s) && s.phase == REFUNDING && e.utxos[0].value == ValueOf(s)
    ensures Refunding.Spend(h, e, LedgerBytes(s), a).Val? <==> RefundingAccepts(h, p, e, s, a)
    ensures RefundingAccepts(h, p, e, s, a) ==> Refunding.Spend(h, e, LedgerBytes(s), a) == Val(RefundVerdict(s))
  {
    hide LedgerBytes, Entry, Refunding.CheckLedger, Refunding.Batch, FeeMatches, ValidLedger, ValueOf,
      RefundStep, ScriptOf, Unmatched, RefundVerdict;
    EntryIs(h, p, e, s, 34, a.programTailBytes, a.actorPk);
    if EntryOk(e, 34, a.actorPk) {
      RefundingCheckIs(e, s);
      RefundCharacterised(h, p, e, s, a);
    }
  }
}
