/** A spend that the reader accepts and the templates do not: one more output under input 0's authority
    (scripts/core/src/accepted.ts:169-177, contracts/open.sil:157-158). */
module ReaderGap {
  import opened Results
  import opened Bytes
  import opened Layout
  import opened State
  import opened Directory
  import opened Scripts
  import opened Tx
  import opened Frames
  import opened Sil
  import opened ContractSteps
  import opened Spends
  import opened Lineage
  import opened ContractReader
  import opened Agreement
  import A = Accepted
  import B = Builders
  import P = Protocol
  import BuilderContract
  import BuilderExact
  import BuilderReader

  // ---------------------------------------------------------------- binding an output to another covenant

  /** The transaction with output `k` bound to covenant `id` under the authority of input 0. */
  function Bound(tx: Transaction, k: nat, id: Bytes): Transaction
    requires k < |tx.outputs|
  {
    tx.(outputs := tx.outputs[k := tx.outputs[k].(covenant := Some(Binding(id, 0)))])
  }

  predicate Bindable(tx: Transaction, k: nat, id: Bytes, family: Bytes) {
    0 < k < |tx.outputs| && tx.outputs[k].covenant == None && |id| == 32 && id != family && tx.version == 1 && tx.inputs != []
  }

  lemma BoundValid(tx: Transaction, k: nat, id: Bytes, family: Bytes)
    requires Bindable(tx, k, id, family)
    ensures ValidTransaction(Bound(tx, k, id)) <==> ValidTransaction(tx)
  {
    hide ValidInput;
    var b := Bound(tx, k, id);
    assert forall i | 0 <= i < |tx.outputs| && i != k :: b.outputs[i] == tx.outputs[i];
    assert ValidOutput(b.outputs[k], b.version, |b.inputs|) <==> ValidOutput(tx.outputs[k], tx.version, |tx.inputs|);
    forall i | 0 <= i < |tx.outputs|
      ensures ValidOutput(b.outputs[i], b.version, |b.inputs|) <==> ValidOutput(tx.outputs[i], tx.version, |tx.inputs|)
    {
    }
  }

  lemma {:induction false} SameTotal(a: seq<Output>, b: seq<Output>)
    requires |a| == |b| && forall i | 0 <= i < |a| :: a[i].value == b[i].value
    ensures TotalOut(a) == TotalOut(b)
  {
    if a != [] {
      SameTotal(a[..|a| - 1], b[..|b| - 1]);
    }
  }

  lemma BoundFamily(tx: Transaction, k: nat, id: Bytes, family: Bytes)
    requires Bindable(tx, k, id, family)
    ensures CovOutputs(Bound(tx, k, id), family) == CovOutputs(tx, family)
  {
    hide Where;
    var b := Bound(tx, k, id);
    var before := seq(|tx.outputs|, i requires 0 <= i < |tx.outputs| =>
      tx.outputs[i].covenant.Some? && tx.outputs[i].covenant.value.covenantId == family);
    var after := seq(|b.outputs|, i requires 0 <= i < |b.outputs| =>
      b.outputs[i].covenant.Some? && b.outputs[i].covenant.value.covenantId == family);
    assert before == after;
  }

  /** Input 0 authorises the bound output too, so neither nothing nor output 0 alone. */
  lemma BoundAuthority(tx: Transaction, k: nat, id: Bytes, family: Bytes)
    requires Bindable(tx, k, id, family)
    ensures AuthOutputs(Bound(tx, k, id), 0) != [] && AuthOutputs(Bound(tx, k, id), 0) != [0]
  {
    hide Where;
    var b := Bound(tx, k, id);
    var flags := seq(|b.outputs|, i requires 0 <= i < |b.outputs| =>
      b.outputs[i].covenant.Some? && b.outputs[i].covenant.value.authorizingInput == 0);
    assert flags[k];
    WhereNone(flags);
    WhereFirst(flags);
  }

  // ---------------------------------------------------------------- the reader does not look

  /** A reader's step of an action that constrains no output but the first. */
  lemma StepIgnores(h: Hashes, p: Profile, x: P.Snapshot, s: Ledger, w: A.SpendInfo, tx: Transaction, fee: int, external: int,
                    k: nat, id: Bytes)
    requires Decodable(s) && x.tip.index >= 0 && Bindable(tx, k, id, x.covenantId)
    requires w.action in {P.BUY, P.CLOSE, P.TIMEOUT_REFUND}
    ensures A.ReadStep(h, p, x, s, w, Bound(tx, k, id), fee, external) == A.ReadStep(h, p, x, s, w, tx, fee, external)
  {
    hide Decodable, ValidLedger, ValidateLedger, AppendPurchase, CovOutputs, ScriptOf, P2sh, ValueOf, A.DataU32;
    BoundFamily(tx, k, id, x.covenantId);
    var b := Bound(tx, k, id);
    assert b.outputs[0] == tx.outputs[0] && |b.outputs| == |tx.outputs|;
    assert A.Auxiliary(|b.outputs|) == A.Auxiliary(|tx.outputs|);
    ActionIgnores(h, x, s, w, tx, fee, external, k, id);
    var f := A.ReadAction(h, x, s, w, tx, fee, external);
    if f.Ok? {
      SuccessorIgnores(h, p, x, w, tx, f.value, k, id);
    }
  }

  lemma ActionIgnores(h: Hashes, x: P.Snapshot, s: Ledger, w: A.SpendInfo, tx: Transaction, fee: int, external: int, k: nat,
                      id: Bytes)
    requires Decodable(s) && x.tip.index >= 0 && Bindable(tx, k, id, x.covenantId)
    requires w.action in {P.BUY, P.CLOSE, P.TIMEOUT_REFUND}
    ensures A.ReadAction(h, x, s, w, Bound(tx, k, id), fee, external) == A.ReadAction(h, x, s, w, tx, fee, external)
  {
    hide Decodable, ValidateLedger, AppendPurchase, P2pk, A.DataU32, A.Auxiliary;
    var b := Bound(tx, k, id);
    assert b.outputs[0] == tx.outputs[0] && |b.outputs| == |tx.outputs| && b.inputs == tx.inputs && b.lockTime == tx.lockTime;
  }

  lemma SuccessorIgnores(h: Hashes, p: Profile, x: P.Snapshot, w: A.SpendInfo, tx: Transaction, f: A.Effect, k: nat, id: Bytes)
    requires Bindable(tx, k, id, x.covenantId) && |f.roles| == |tx.outputs|
    ensures A.ReadSuccessor(h, p, x, w, Bound(tx, k, id), f) == A.ReadSuccessor(h, p, x, w, tx, f)
  {
    hide ValidLedger, ValidateLedger, CovOutputs, ScriptOf, P2sh, ValueOf, Decodable;
    BoundFamily(tx, k, id, x.covenantId);
    var b := Bound(tx, k, id);
    assert b.outputs[0] == tx.outputs[0] && |b.outputs| == |tx.outputs|;
  }

  lemma FundingIgnores(x: P.Snapshot, tx: Transaction, w: A.SpendInfo, values: Option<seq<int>>, k: nat, id: Bytes)
    requires Bindable(tx, k, id, x.covenantId)
    ensures A.CheckedFunding(x, Bound(tx, k, id), w, values) == A.CheckedFunding(x, tx, w, values)
  {
    hide TotalOut, A.Sum, Payable;
    var b := Bound(tx, k, id);
    assert forall i | 0 <= i < |tx.outputs| :: b.outputs[i].value == tx.outputs[i].value;
    SameTotal(b.outputs, tx.outputs);
  }

  lemma SpendIgnores(p: Profile, x: P.Snapshot, tx: Transaction, k: nat, id: Bytes)
    requires Bindable(tx, k, id, x.covenantId)
    ensures A.CheckedSpend(p, x, Bound(tx, k, id)) == A.CheckedSpend(p, x, tx)
  {
    hide A.DecodeSpend;
    var b := Bound(tx, k, id);
    assert b.inputs == tx.inputs && |b.outputs| == |tx.outputs| && DistinctInputs(b) == DistinctInputs(tx);
  }

  /** The reader gives one and the same account of a BUY, CLOSE or TIMEOUT whether or not a later output is bound to another
      covenant under input 0. */
  lemma ReaderIgnores(h: Hashes, p: Profile, x: P.Snapshot, tx: Transaction, values: Option<seq<int>>, k: nat, id: Bytes)
    requires Bindable(tx, k, id, x.covenantId)
    requires var i := A.InterpretAccepted(h, p, x, tx, values); i.Ok? ==> i.value.action in {P.BUY, P.CLOSE, P.TIMEOUT_REFUND}
    requires A.InterpretAccepted(h, p, x, tx, values).Ok?
    ensures A.InterpretAccepted(h, p, x, Bound(tx, k, id), values) == A.InterpretAccepted(h, p, x, tx, values)
  {
    hide ValidTransaction, P.VerifySnapshot, A.CheckedSpend, A.CheckedFunding, A.ReadStep, P.Verified, Bound, Bindable;
    BoundValid(tx, k, id, x.covenantId);
    SpendIgnores(p, x, tx, k, id);
    var s, w := P.VerifySnapshot(h, p, x).value, A.CheckedSpend(p, x, tx).value;
    FundingIgnores(x, tx, w, values, k, id);
    P.VerifyIsVerified(h, p, x, s);
    VerifiedShape(h, p, x, s);
    var funding := A.CheckedFunding(x, tx, w, values).value;
    StepIgnores(h, p, x, s, w, tx, funding.1, funding.0, k, id);
  }

  lemma VerifiedShape(h: Hashes, p: Profile, x: P.Snapshot, s: Ledger)
    requires P.Verified(h, p, x, s)
    ensures Decodable(s) && x.tip.index >= 0
  {
    hide ValidLedger, LedgerBytes, RootPreimage, ScriptOf, RootScript, ValueOf, P2sh;
  }

  // ---------------------------------------------------------------- the templates do

  function BoundEnv(e: Env, k: nat, id: Bytes): Env
    requires k < |e.tx.outputs|
  {
    e.(tx := Bound(e.tx, k, id))
  }

  lemma BoundSpending(h: Hashes, p: Profile, r: Round, u: Live, s: Ledger, e: Env, currentDaa: int, k: nat, id: Bytes)
    requires Spending(h, p, r, u, s, e, currentDaa) && Bindable(e.tx, k, id, r.id) && id != ZERO
    ensures Spending(h, p, r, u, s, BoundEnv(e, k, id), currentDaa)
  {
    hide Holds, LedgerScript, P2sh, ValidTransaction, RootPreimage, ScriptOf, TemplatesBind, LedgerBytes;
    BoundValid(e.tx, k, id, r.id);
    var b := Bound(e.tx, k, id);
    assert b.inputs == e.tx.inputs && b.lockTime == e.tx.lockTime && DistinctInputs(b) == DistinctInputs(e.tx);
    assert forall i | 0 <= i < |b.outputs| && i != k :: b.outputs[i] == e.tx.outputs[i];
  }

  /** The reader's account of a spend and the node's refusal of it. */
  ghost predicate OnlyTheReader(h: Hashes, p: Profile, r: Round, u: Live, e: Env, currentDaa: int) {
    && LedgerSized(u.ledger)
    && Read(h, p, r, u, e, currentDaa).Ok?
    && forall v :: !AcceptedSpend(h, p, r, u, e, v)
  }

  /** Whatever BUY, CLOSE or TIMEOUT with a second ordinary output the reader accepts, it accepts with that output bound to
      another covenant under input 0 as well, and then no template does. */
  lemma ReaderAcceptsMore(h: Hashes, p: Profile, r: Round, u: Live, s: Ledger, e: Env, currentDaa: int, k: nat, id: Bytes)
    requires Spending(h, p, r, u, s, e, currentDaa) && Bindable(e.tx, k, id, r.id) && id != ZERO
    requires LedgerSized(u.ledger) && Read(h, p, r, u, e, currentDaa).Ok?
    requires Read(h, p, r, u, e, currentDaa).value.action in {P.BUY, P.CLOSE, P.TIMEOUT_REFUND}
    ensures Spending(h, p, r, u, s, BoundEnv(e, k, id), currentDaa)
    ensures OnlyTheReader(h, p, r, u, BoundEnv(e, k, id), currentDaa)
  {
    hide Spending, A.InterpretAccepted, AcceptedSpend, Tells, AuthOutputs, Bound, ValuesOf;
    BoundSpending(h, p, r, u, s, e, currentDaa, k, id);
    BoundRead(h, p, r, u, e, currentDaa, k, id);
    BoundAuthority(e.tx, k, id, r.id);
    ContractAndReaderAgree(h, p, r, u, s, BoundEnv(e, k, id), currentDaa);
  }

  lemma BoundRead(h: Hashes, p: Profile, r: Round, u: Live, e: Env, currentDaa: int, k: nat, id: Bytes)
    requires LedgerSized(u.ledger) && Bindable(e.tx, k, id, r.id) && Read(h, p, r, u, e, currentDaa).Ok?
    requires Read(h, p, r, u, e, currentDaa).value.action in {P.BUY, P.CLOSE, P.TIMEOUT_REFUND}
    ensures Read(h, p, r, u, BoundEnv(e, k, id), currentDaa) == Read(h, p, r, u, e, currentDaa)
  {
    hide A.InterpretAccepted, Bound, Bindable, LedgerScript, P2sh;
    ReaderIgnores(h, p, SnapshotOf(h, p, r, u, currentDaa), e.tx, Some(ValuesOf(e.utxos)), k, id);
  }

  // ---------------------------------------------------------------- such a spend exists

  const ORIGIN := Outpoint(Zeros(31) + [1], 0)

  /** A round of three tickets at the least price, just created. */
  function SmallLedger(): Ledger {
    NewOpen(Zeros(32), Config(MIN_PRICE, 3, 1, 3, 1))
  }

  lemma SmallValid()
    ensures ValidLedger(SmallLedger()) && Decodable(SmallLedger()) && ValueOf(SmallLedger()) == DEPOSIT
    ensures LedgerSized(LedgerBytes(SmallLedger()))
  {
    hide ValidLedger, Decodable, LedgerBytes;
    NewOpenValid(Zeros(32), Config(MIN_PRICE, 3, 1, 3, 1));
    ValidIsDecodable(SmallLedger());
    LedgerSlices(SmallLedger());
  }

  function SmallRound(h: Hashes, p: Profile): Round {
    hide Decodable, LedgerBytes;
    SmallValid();
    Round(ORIGIN, h.covenantId(RootPreimage(h, ORIGIN, ScriptOf(SmallLedger(), p))), Zeros(32), Config(MIN_PRICE, 3, 1, 3, 1))
  }

  function SmallLive(): Live {
    hide Decodable, LedgerBytes;
    SmallValid();
    Live(OpenModule, LedgerBytes(SmallLedger()), DEPOSIT, 0, Outpoint(Zeros(32), 0))
  }

  function SmallSnapshot(h: Hashes, p: Profile): P.Snapshot {
    hide Decodable, LedgerBytes, RootPreimage, LedgerScript, P2sh;
    SmallValid();
    SnapshotOf(h, p, SmallRound(h, p), SmallLive(), 1)
  }

  /** One ticket, one sompi of fee and one of change. */
  const BUY_ONE := P.Operation(P.BUY, Zeros(32), Some(1), None, None)
  const FUNDS := [B.Funding(Outpoint(Zeros(31) + [2], 0), MIN_PRICE + 2, P2pk(Zeros(32)), 0, None)]

  /** The hashes bind the small round's script, id and templates. */
  ghost predicate Binds(h: Hashes, p: Profile) {
    hide Decodable, LedgerBytes, RootPreimage, LedgerScript;
    SmallValid();
    && SmallRound(h, p).id != ZERO
    && Unmatched(h.blake2b, ScriptOf(SmallLedger(), p))
    && Unmatched(h.covenantId, RootPreimage(h, ORIGIN, ScriptOf(SmallLedger(), p)))
    && TemplatesBind(h, p)
  }

  lemma SmallVerified(h: Hashes, p: Profile)
    ensures P.Verified(h, p, SmallSnapshot(h, p), SmallLedger())
  {
    hide ValidLedger, Decodable, LedgerBytes, RootPreimage, ValueOf, LedgerScript, P2sh;
    SmallValid();
    OriginNotZero();
  }

  lemma OriginNotZero()
    ensures GoodOrigin(ORIGIN) && FUNDS[0].outpoint != Outpoint(Zeros(32), 0)
  {
    assert ORIGIN.transactionId[31] != ZERO[31];
    assert FUNDS[0].outpoint.transactionId[31] != Zeros(32)[31];
  }

  /** The transition of the purchase: the ledger with one ticket more, and one sompi back. */
  lemma SmallTransition(h: Hashes, p: Profile)
    ensures var t := P.TransitionOf(h, p, SmallSnapshot(h, p), BUY_ONE, 1, MIN_PRICE + 2);
            t.Ok? && t.value.next.Some? && |t.value.payments| == 1
  {
    hide P.VerifySnapshot, ValidLedger, Decodable, SmallSnapshot, AppendPurchase, ValidateLedger, P.Verified, ValueOf;
    SmallValid();
    SmallVerified(h, p);
    var s := SmallLedger();
    P.VerifyIsVerified(h, p, SmallSnapshot(h, p), s);
    AppendIsBought(s, 1, Zeros(32));
    PurchaseKeepsValid(s, 1, Zeros(32));
    ValidateIsValid(Bought(s, 1, Zeros(32)));
    Pow256Values();
  }

  lemma SmallFunding()
    ensures B.FundingInputs(FUNDS, Zeros(32)).Ok? && B.TotalFunding(FUNDS) == MIN_PRICE + 2
    ensures !B.Seen(FUNDS, Outpoint(Zeros(32), 0))
  {
    hide P2pk;
    OriginNotZero();
    assert FUNDS[..|FUNDS| - 1] == [];
    assert B.FundsChecked([], Zeros(32)) == Ok(()) && B.TotalFunding([]) == 0;
    assert B.FundChecked(FUNDS[0], Zeros(32), B.Seen([], FUNDS[0].outpoint)) == Ok(());
  }

  /** The node's view of the built purchase. */
  function SmallEnv(h: Hashes, p: Profile, tx: Transaction): Env {
    hide Decodable, LedgerBytes, LedgerScript, P2sh;
    SmallValid();
    Env(0, tx,
        [Utxo(DEPOSIT, P2sh(h.blake2b(RedeemOf(p, SmallLive()))), 0, Some(SmallRound(h, p).id)),
         Utxo(MIN_PRICE + 2, P2pk(Zeros(32)), 0, None)], _ => None)
  }

  lemma SmallBuilt(h: Hashes, p: Profile) returns (d: B.Draft)
    requires SmallRound(h, p).id != ZERO
    ensures B.BuildAction(h, p, SmallSnapshot(h, p), BUY_ONE, 1, FUNDS, 0, []) == Ok(d)
    ensures var tx := d.transaction;
            && ValidTransaction(tx) && DistinctInputs(tx) && tx.version == 1 && tx.lockTime == 0
            && |tx.inputs| == 2 && tx.inputs[0].previousOutpoint == Outpoint(Zeros(32), 0) && tx.inputs[0].sequence == 0
            && |tx.outputs| == 2 && tx.outputs[1].covenant == None
            && tx.outputs[0].covenant == Some(Binding(SmallRound(h, p).id, 0))
  {
    hide B.BuildAction, P.TransitionOf, SmallRound, P.VerifySnapshot, ValidTransaction, DistinctInputs, B.Witness, B.FundingInputs,
      TotalOut, ValidLedger, Decodable, ValueOf, ScriptOf, P2sh, B.TotalFunding;
    SmallTransition(h, p);
    SmallFunding();
    BuilderExact.BuildExactly(h, p, SmallSnapshot(h, p), BUY_ONE, 1, FUNDS, 0, []);
    d := B.BuildAction(h, p, SmallSnapshot(h, p), BUY_ONE, 1, FUNDS, 0, []).value;
    var s, signature := BuilderReader.BuiltParts(h, p, SmallSnapshot(h, p), BUY_ONE, 1, FUNDS, 0, []);
    BuySequence(h, p, SmallSnapshot(h, p), 1, MIN_PRICE + 2, d.transition);
  }

  lemma BuySequence(h: Hashes, p: Profile, x: P.Snapshot, fee: int, external: int, t: P.Transition)
    requires P.TransitionOf(h, p, x, BUY_ONE, fee, external) == Ok(t)
    ensures t.lockTime == 0 && t.sequence == 0
  {
    hide P.VerifySnapshot, P.AvailableActions, AppendPurchase, ValidateLedger, P.Change;
  }

  lemma SmallSpending(h: Hashes, p: Profile, tx: Transaction)
    requires Binds(h, p) && ValidTransaction(tx) && DistinctInputs(tx) && |tx.inputs| == 2 && tx.lockTime == 0
    requires tx.inputs[0].previousOutpoint == Outpoint(Zeros(32), 0) && tx.inputs[0].sequence == 0
    requires |tx.outputs| == 2 && tx.outputs[0].covenant == Some(Binding(SmallRound(h, p).id, 0)) && tx.outputs[1].covenant == None
    ensures Spending(h, p, SmallRound(h, p), SmallLive(), SmallLedger(), SmallEnv(h, p, tx), 1)
  {
    hide ValidLedger, Decodable, ValidTransaction, RootPreimage, LedgerScript, LedgerBytes, P2sh, ValueOf, DistinctInputs, TemplatesBind;
    SmallValid();
    OriginNotZero();
  }

  /** On a new round of three tickets, the purchase that the builder makes, with its change bound to any other covenant under
      input 0, is a spend that the reader accepts and no template does. */
  lemma ReaderGapExists(h: Hashes, p: Profile, id: Bytes)
    requires Binds(h, p) && |id| == 32 && id != ZERO && id != SmallRound(h, p).id
    ensures exists e :: Spending(h, p, SmallRound(h, p), SmallLive(), SmallLedger(), e, 1)
                        && OnlyTheReader(h, p, SmallRound(h, p), SmallLive(), e, 1)
  {
    hide B.BuildAction, Spending, A.InterpretAccepted, SmallRound, SmallLedger, SmallSnapshot, OnlyTheReader, ValidTransaction,
      TemplatesBind, Unmatched, ValuesOf, BuilderReader.InputValues, LedgerScript, LedgerBytes, P2sh;
    var d := SmallBuilt(h, p);
    var e := SmallEnv(h, p, d.transaction);
    SmallSpending(h, p, d.transaction);
    SmallRead(h, p, d);
    ReaderAcceptsMore(h, p, SmallRound(h, p), SmallLive(), SmallLedger(), e, 1, 1, id);
  }

  lemma SmallRead(h: Hashes, p: Profile, d: B.Draft)
    requires B.BuildAction(h, p, SmallSnapshot(h, p), BUY_ONE, 1, FUNDS, 0, []) == Ok(d)
    requires |d.transaction.inputs| == 2
    ensures LedgerSized(SmallLive().ledger)
    ensures var i := Read(h, p, SmallRound(h, p), SmallLive(), SmallEnv(h, p, d.transaction), 1);
            i.Ok? && i.value.action == P.BUY
  {
    hide B.BuildAction, A.InterpretAccepted, SmallRound, LedgerScript, LedgerBytes, P2sh, ValuesOf, BuilderReader.InputValues;
    SmallValid();
    var e, x := SmallEnv(h, p, d.transaction), SmallSnapshot(h, p);
    BuilderContract.FundedValues(e, SmallRound(h, p), x, FUNDS);
    BuilderReader.BuilderAndReaderAgree(h, p, x, BUY_ONE, 1, FUNDS, 0, [], d.transaction);
  }

  // ---------------------------------------------------------------- hashes that bind

  function Mark(n: Byte): (d: Digest)
    ensures d[31] == n
  {
    Zeros(31) + [n]
  }

  /** A hash that tells two inputs from each other and from all others. */
  function Telling(a: Bytes, b: Bytes): Bytes -> Digest {
    x => if x == a then Mark(1) else if x == b then Mark(2) else ZERO
  }

  lemma TellingTells(a: Bytes, b: Bytes)
    ensures Unmatched(Telling(a, b), a) && Unmatched(Telling(a, b), b) && Telling(a, b)(a) != ZERO
  {
    assert Mark(1)[31] != Mark(2)[31] && Mark(1)[31] != ZERO[31] && Mark(2)[31] != ZERO[31];
  }

  /** Hash functions that bind the small round of a profile. */
  function BindingHashes(p: Profile): Hashes {
    hide Decodable, LedgerBytes, LedgerScript, RootPreimage;
    SmallValid();
    var script := ScriptOf(SmallLedger(), p);
    var h := Hashes(Telling(script, script), _ => ZERO, Telling(TemplateBytes(p.sealed.tail), TemplateBytes(p.refunding.tail)),
                    (_, _) => ZERO);
    var preimage := RootPreimage(h, ORIGIN, script);
    h.(covenantId := Telling(preimage, preimage))
  }

  lemma HashesBind(p: Profile)
    ensures Binds(BindingHashes(p), p)
  {
    hide Decodable, LedgerBytes, LedgerScript, TemplateBytes, Unmatched, Telling;
    SmallValid();
    var h, script := BindingHashes(p), ScriptOf(SmallLedger(), p);
    TellingTells(script, script);
    TellingTells(RootPreimage(h, ORIGIN, script), RootPreimage(h, ORIGIN, script));
    TellingTells(TemplateBytes(p.sealed.tail), TemplateBytes(p.refunding.tail));
  }

  /** Under every profile there are hashes, a covenant id and a spend that only the reader accepts. */
  lemma ReaderGapOccurs(p: Profile)
    ensures var h := BindingHashes(p);
            exists e :: Spending(h, p, SmallRound(h, p), SmallLive(), SmallLedger(), e, 1)
                        && OnlyTheReader(h, p, SmallRound(h, p), SmallLive(), e, 1)
  {
    hide SmallRound, Spending, OnlyTheReader, Binds, BindingHashes;
    var h := BindingHashes(p);
    HashesBind(p);
    var id := if SmallRound(h, p).id == Mark(1) then Mark(2) else Mark(1);
    assert Mark(1)[31] != Mark(2)[31] && Mark(1)[31] != ZERO[31] && Mark(2)[31] != ZERO[31];
    ReaderGapExists(h, p, id);
  }
}
