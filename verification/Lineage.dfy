/** Runs of accepted spends from a round's genesis: what the templates keep without re-checking it. */
module Lineage {
  import opened Results
  import opened Bytes
  import opened Layout
  import opened State
  import opened Directory
  import opened Scripts
  import opened Tx
  import opened Frames
  import opened Sil
  import opened LedgerEdits
  import opened ContractSteps
  import opened Spends
  import Open
  import Sealed
  import Refunding

  /** What stays fixed for a round. */
  datatype Round = Round(origin: Outpoint, id: Bytes, ownerKey: Bytes, config: Config)

  /** A live state output: template, ledger bytes, amount, accepting DAA score and outpoint. */
  datatype Live = Live(to: Module, ledger: Bytes, value: int, daa: int, tip: Outpoint)

  function GenesisOf(r: Round): Ledger {
    NewOpen(r.ownerKey, r.config)
  }

  /** The covenant id of the round commits to its origin and its zero-ticket OPEN script. */
  ghost predicate Rooted(h: Hashes, p: Profile, r: Round) {
    && GoodOrigin(r.origin)
    && |r.ownerKey| == KEY_BYTES
    && ValidConfig(r.config)
    && Decodable(GenesisOf(r))
    && r.id == h.covenantId(RootPreimage(h, r.origin, ScriptOf(GenesisOf(r), p)))
  }

  /** `u` is the state output of the valid ledger `s` of round `r`. */
  ghost predicate Holds(h: Hashes, p: Profile, r: Round, u: Live, s: Ledger) {
    && Rooted(h, p, r)
    && ValidLedger(s)
    && Decodable(s)
    && s.ownerKey == r.ownerKey
    && s.config == r.config
    && u.ledger == LedgerBytes(s)
    && u.to == PhaseModule(s.phase)
    && u.value == ValueOf(s)
    && |u.tip.transactionId| == 32 && u.tip.index == 0
  }

  function RedeemOf(p: Profile, u: Live): Bytes
    requires LedgerSized(u.ledger)
  {
    LedgerScript(u.ledger, FrameOf(p, u.to).tail)
  }

  /** The node runs `e` against the output `u`: whatever redeem script the witness reveals, it hashes to the
      script hash that the output carries, and its template accepts with verdict `v`. */
  ghost predicate AcceptedSpend(h: Hashes, p: Profile, r: Round, u: Live, e: Env, v: Verdict) {
    && Matched(e)
    && LedgerSized(u.ledger)
    && ValidTransaction(e.tx)
    && e.utxos[0] == Utxo(u.value, P2sh(h.blake2b(RedeemOf(p, u))), u.daa, Some(r.id))
    && e.tx.inputs[0].previousOutpoint == u.tip
    && exists m: Module, ledger: Bytes :: Execute(h, p, e, m, ledger) == Val(v)
  }

  /** The output that an accepted spend created for the next state. */
  function Successor0(e: Env, to: Module, ledger: Bytes, daa: int, txId: Bytes): Live
    requires |e.tx.outputs| > 0
  {
    Live(to, ledger, e.tx.outputs[0].value, daa, Outpoint(txId, 0))
  }

  // ---------------------------------------------------------------- one step

  /** Only the committed template and ledger can be revealed. */
  lemma OnlyCommittedRuns(h: Hashes, p: Profile, r: Round, u: Live, e: Env, m: Module, ledger: Bytes)
    requires LedgerSized(u.ledger) && Unmatched(h.blake2b, RedeemOf(p, u))
    requires Matched(e) && e.utxos[0].spk == P2sh(h.blake2b(RedeemOf(p, u)))
    requires Execute(h, p, e, m, ledger).Val?
    ensures m == u.to && ledger == u.ledger
  {
    hide LedgerScript, P2sh, Open.Spend, Sealed.Spend, Refunding.Spend, WitnessOf, OpenArgs, SealedArgs;
    var script := LedgerScript(ledger, FrameOf(p, m).tail);
    P2shInjective(h.blake2b(script), h.blake2b(RedeemOf(p, u)));
    LedgerScriptInjective(ledger, FrameOf(p, m).tail, u.ledger, FrameOf(p, u.to).tail);
    TailsDistinct(p, m, u.to);
  }

  lemma {:induction false} LastItemIsSuffix(b: Bytes)
    requires Pushes(b).Ok? && |Pushes(b).value| > 0
    requires |Pushes(b).value[|Pushes(b).value| - 1]| >= 2
    ensures HasSuffix(b, Pushes(b).value[|Pushes(b).value| - 1])
    decreases |b|
  {
    hide FirstPush;
    var f := FirstPush(b).value;
    var rest := b[f.size..];
    if rest == [] {
      WholePushIsSuffix(b);
    } else {
      LastItemIsSuffix(rest);
      var last := Pushes(b).value[|Pushes(b).value| - 1];
      assert rest[|rest| - |last|..] == b[|b| - |last|..];
    }
  }

  lemma WholePushIsSuffix(b: Bytes)
    requires b != [] && FirstPush(b).Ok? && FirstPush(b).value.size == |b| && |FirstPush(b).value.item| >= 2
    ensures HasSuffix(b, FirstPush(b).value.item)
  {
    hide FromLe;
  }

  /** An accepted spend of a valid state satisfies the premises of the template characterisations. */
  lemma AcceptedSpendsState(h: Hashes, p: Profile, r: Round, u: Live, s: Ledger, e: Env)
    requires Holds(h, p, r, u, s) && LedgerSized(u.ledger) && Unmatched(h.blake2b, RedeemOf(p, u))
    requires Matched(e) && e.utxos[0].spk == P2sh(h.blake2b(RedeemOf(p, u)))
    requires Execute(h, p, e, u.to, u.ledger).Val?
    ensures SpendsState(h, p, e, s)
  {
    hide LedgerScript, P2sh, Open.Spend, Sealed.Spend, Refunding.Spend, OpenArgs, SealedArgs, ValidLedger, LedgerBytes,
      Rooted, HasSuffix, Pushes, Unmatched, ValueOf;
    ScriptLength(u.ledger, FrameOf(p, u.to).tail);
    LastItemIsSuffix(e.tx.inputs[0].signatureScript);
  }

  lemma ScriptLength(ledger: Bytes, tail: Bytes)
    requires LedgerSized(ledger)
    ensures |LedgerScript(ledger, tail)| >= 2
  {
  }

  /** The ledger that follows `s`, by the action and data of the witness. */
  datatype Move = BuyMove(quantity: int, buyer: Bytes) | CloseMove | TimeoutMove | RefundMove

  /** The moves that lead to another live state, and the state they lead to. */
  predicate CanMove(s: Ledger, m: Move) {
    && ValidLedger(s)
    && match m
       case BuyMove(quantity, buyer) => CanBuy(s, quantity, buyer)
       case CloseMove => s.phase == OPEN && s.sold > 0
       case TimeoutMove => s.phase == SEALED
       case RefundMove => s.phase == REFUNDING && !IsLast(s)
  }

  function Moved(s: Ledger, m: Move): Ledger
    requires CanMove(s, m)
  {
    match m
    case BuyMove(quantity, buyer) => Bought(s, quantity, buyer)
    case CloseMove => Closed(s)
    case TimeoutMove => s.(phase := REFUNDING)
    case RefundMove => s.(cursor := s.cursor + BatchSize(s))
  }

  lemma MovedValid(s: Ledger, m: Move)
    requires CanMove(s, m)
    ensures ValidLedger(Moved(s, m)) && Decodable(Moved(s, m))
    ensures Moved(s, m).ownerKey == s.ownerKey && Moved(s, m).config == s.config
  {
    hide ValidLedger;
    match m
    case BuyMove(quantity, buyer) =>
      PurchaseKeepsValid(s, quantity, buyer);
      ValidParts(Moved(s, m));
    case CloseMove =>
      ClosedValid(s);
      ValidParts(Moved(s, m));
    case TimeoutMove =>
      TimedOutValid(s);
      ValidParts(Moved(s, m));
    case RefundMove =>
      AdvancedValid(s);
      ValidParts(Moved(s, m));
  }

  /** Output 0 of `e` is the state output of the ledger that move `m` leads to. */
  ghost predicate MovesTo(h: Hashes, p: Profile, r: Round, s: Ledger, e: Env, m: Move, v: Verdict) {
    && CanMove(s, m)
    && var next := Moved(s, m);
    && ValidLedger(next) && Decodable(next)
    && v == Continue(PhaseModule(next.phase), LedgerBytes(next))
    && Continues(h, p, e, r.id, next, ValueOf(next))
  }

  lemma OpenStep(h: Hashes, p: Profile, r: Round, s: Ledger, e: Env, a: Open.Args)
    requires SpendsState(h, p, e, s) && s.phase == OPEN && e.utxos[0].value == ValueOf(s)
    requires e.utxos[0].covenantId == Some(r.id)
    requires OpenAccepts(h, p, e, s, a)
    ensures OpenVerdict(s, a).Continue? ==>
              exists m: Move :: MovesTo(h, p, r, s, e, m, OpenVerdict(s, a))
    ensures OpenVerdict(s, a).Final? ==> OpenVerdict(s, a).terminal == EMPTY
  {
    hide LedgerBytes, ValidLedger, Continues, EntryOk, FeeMatches, LockedUntil, Ordinary, NoFamily, ScriptOf, Unmatched,
      HasSuffix, RootPreimage, CanBuy, Cost, ValueOf;
    if a.action == 1 {
      var m := BuyMove(U32(a.data, 0).value, a.actorPk);
      BuyIsValid(s, m.quantity, m.buyer);
      MovedValid(s, m);
      PurchaseKeepsValid(s, m.quantity, m.buyer);
      assert MovesTo(h, p, r, s, e, m, OpenVerdict(s, a));
    } else if s.sold != 0 {
      ValidParts(s);
      assert CanMove(s, CloseMove);
      MovedValid(s, CloseMove);
      ClosedValid(s);
      assert MovesTo(h, p, r, s, e, CloseMove, OpenVerdict(s, a));
    }
  }

  lemma BuyIsValid(s: Ledger, quantity: int, buyer: Bytes)
    requires CanBuy(s, quantity, buyer)
    ensures ValidLedger(s) && s.phase == OPEN
  {
  }

  lemma SealedStep(h: Hashes, p: Profile, r: Round, s: Ledger, e: Env, a: Sealed.Args)
    requires SpendsState(h, p, e, s) && s.phase == SEALED && e.utxos[0].value == ValueOf(s)
    requires e.utxos[0].covenantId == Some(r.id)
    requires SealedAccepts(h, p, e, s, a)
    ensures a.action == 9 ==> MovesTo(h, p, r, s, e, TimeoutMove, SealedVerdict(s, a))
  {
    hide LedgerBytes, ValidLedger, Continues, EntryOk, FeeMatches, AgedBy, ScriptOf, Unmatched, HasSuffix, DrawStep,
      ValueOf;
    TimedOutValid(s);
    ValidParts(s.(phase := REFUNDING));
  }

  lemma RefundingStep(h: Hashes, p: Profile, r: Round, s: Ledger, e: Env, a: Sealed.Args)
    requires SpendsState(h, p, e, s) && s.phase == REFUNDING && e.utxos[0].value == ValueOf(s)
    requires e.utxos[0].covenantId == Some(r.id)
    requires RefundingAccepts(h, p, e, s, a)
    ensures !IsLast(s) ==> MovesTo(h, p, r, s, e, RefundMove, RefundVerdict(s))
  {
    hide LedgerBytes, ValidLedger, Continues, EntryOk, FeeMatches, ScriptOf, Unmatched, HasSuffix, RefundsAll,
      Ordinary, NoFamily, ValueOf, BatchGross, TotalIn;
    if !IsLast(s) {
      AdvancedValid(s);
      ValidParts(s.(cursor := s.cursor + BatchSize(s)));
    }
  }

  /** Every accepted spend of a valid state either makes a ledger-level move, with output 0 as the next state output,
      or ends the round in the way its phase allows. */
  lemma AcceptedStep(h: Hashes, p: Profile, r: Round, u: Live, s: Ledger, e: Env, v: Verdict)
    requires Holds(h, p, r, u, s) && AcceptedSpend(h, p, r, u, e, v)
    requires Unmatched(h.blake2b, RedeemOf(p, u)) && TemplatesBind(h, p)
    ensures v.Continue? ==> exists m: Move :: MovesTo(h, p, r, s, e, m, v)
    ensures v.Final? ==> v.terminal == (if s.phase == OPEN then EMPTY else if s.phase == SEALED then PAID else REFUNDED)
  {
    hide LedgerScript, P2sh, Open.Spend, ValidLedger, LedgerBytes, Rooted, HasSuffix, Execute,
      ValueOf, Unmatched, WitnessOf, OpenAccepts, MovesTo, TemplatesBind, ValidTransaction, OpenVerdict;
    var m: Module, ledger: Bytes :| Execute(h, p, e, m, ledger) == Val(v);
    OnlyCommittedRuns(h, p, r, u, e, m, ledger);
    AcceptedSpendsState(h, p, r, u, s, e);
    PhaseOfValid(s);
    match m
    case OpenModule =>
      var a := OpenExecuted(h, p, e, u.ledger);
      OpenSpendIs(h, p, e, s, a);
      OpenStep(h, p, r, s, e, a);
    case SealedModule =>
      SealedAccepted(h, p, r, u, s, e, v);
    case RefundingModule =>
      RefundingAccepted(h, p, r, u, s, e, v);
  }

  lemma PhaseOfValid(s: Ledger)
    requires ValidLedger(s)
    ensures s.phase == OPEN <==> PhaseModule(s.phase) == OpenModule
    ensures s.phase == SEALED <==> PhaseModule(s.phase) == SealedModule
    ensures s.phase == REFUNDING <==> PhaseModule(s.phase) == RefundingModule
  {
    hide StartAt;
  }

  lemma SealedAccepted(h: Hashes, p: Profile, r: Round, u: Live, s: Ledger, e: Env, v: Verdict)
    requires Holds(h, p, r, u, s) && s.phase == SEALED && SpendsState(h, p, e, s) && TemplatesBind(h, p)
    requires e.utxos[0].value == u.value && e.utxos[0].covenantId == Some(r.id)
    requires Execute(h, p, e, SealedModule, u.ledger) == Val(v)
    ensures v.Continue? ==> exists m: Move :: MovesTo(h, p, r, s, e, m, v)
    ensures v.Final? ==> v.terminal == PAID
  {
    hide LedgerScript, P2sh, Sealed.Spend, ValidLedger, LedgerBytes, Rooted, HasSuffix, ValueOf, Unmatched, WitnessOf,
      MovesTo, TemplatesBind, DrawStep, TimeoutStep, Execute, EntryOk, FeeMatches;
    var a := SealedExecuted(h, p, e, u.ledger);
    SealedSpendIs(h, p, e, s, a);
    SealedStep(h, p, r, s, e, a);
  }

  lemma RefundingAccepted(h: Hashes, p: Profile, r: Round, u: Live, s: Ledger, e: Env, v: Verdict)
    requires Holds(h, p, r, u, s) && s.phase == REFUNDING && SpendsState(h, p, e, s)
    requires e.utxos[0].value == u.value && e.utxos[0].covenantId == Some(r.id)
    requires Execute(h, p, e, RefundingModule, u.ledger) == Val(v)
    ensures v.Continue? ==> exists m: Move :: MovesTo(h, p, r, s, e, m, v)
    ensures v.Final? ==> v.terminal == REFUNDED
  {
    hide LedgerScript, P2sh, Refunding.Spend, ValidLedger, LedgerBytes, Rooted, HasSuffix, ValueOf, Unmatched, WitnessOf,
      MovesTo, RefundStep, IsLast, Execute, EntryOk, FeeMatches;
    var a := RefundingExecuted(h, p, e, u.ledger);
    RefundingSpendIs(h, p, e, s, a);
    RefundingStep(h, p, r, s, e, a);
  }

  /** The next state output is again the state output of a valid ledger of the same round. */
  lemma StepHolds(h: Hashes, p: Profile, r: Round, u: Live, s: Ledger, e: Env, m: Move, v: Verdict, daa: int, txId: Bytes)
    requires Holds(h, p, r, u, s) && MovesTo(h, p, r, s, e, m, v) && |txId| == 32
    ensures Holds(h, p, r, Successor0(e, v.to, v.ledger, daa, txId), Moved(s, m))
  {
    hide ValidLedger, LedgerBytes, Rooted, ScriptOf, ValueOf;
    MovedValid(s, m);
  }

  /** A SEALED output accepted within the timeout delay of the DAA limit has no accepted spend at all. */
  lemma LateSealedHasNoSpend(h: Hashes, p: Profile, r: Round, u: Live, s: Ledger, e: Env, v: Verdict)
    requires Holds(h, p, r, u, s) && s.phase == SEALED && u.daa >= DAA_LIMIT - TIMEOUT_DELAY
    requires LedgerSized(u.ledger) && Unmatched(h.blake2b, RedeemOf(p, u)) && TemplatesBind(h, p)
    ensures !AcceptedSpend(h, p, r, u, e, v)
  {
    hide LedgerScript, P2sh, Sealed.Spend, ValidLedger, LedgerBytes, Rooted, HasSuffix, ValueOf, Unmatched, WitnessOf,
      TemplatesBind, Execute, EntryOk, FeeMatches, ValidTransaction, SealedAccepts;
    if AcceptedSpend(h, p, r, u, e, v) {
      var m: Module, ledger: Bytes :| Execute(h, p, e, m, ledger) == Val(v);
      OnlyCommittedRuns(h, p, r, u, e, m, ledger);
      AcceptedSpendsState(h, p, r, u, s, e);
      PhaseOfValid(s);
      var a := SealedExecuted(h, p, e, u.ledger);
      SealedSpendIs(h, p, e, s, a);
      AnchorInTime(h, p, e, s, a);
    }
  }

  lemma AnchorInTime(h: Hashes, p: Profile, e: Env, s: Ledger, a: Sealed.Args)
    requires Matched(e) && ValidLedger(s) && SealedAccepts(h, p, e, s, a)
    ensures e.utxos[0].daa < DAA_LIMIT - TIMEOUT_DELAY
  {
    hide PayoutStep, FeeMatches, Continues, AgedBy, ValidLedger, SeedOf;
  }

  // ---------------------------------------------------------------- genesis

  /** A zero-ticket OPEN output whose covenant id commits to its origin and script. */
  ghost predicate GenesisLive(h: Hashes, p: Profile, r: Round, u: Live) {
    && u.to == OpenModule && u.value == DEPOSIT && |u.tip.transactionId| == 32 && u.tip.index == 0
    && LedgerSized(u.ledger)
    && Open.CheckLedger(u.ledger).Val?
    && Open.GenesisLedger(u.ledger) == u.ledger
    && GoodOrigin(r.origin)
    && r.id == h.covenantId(RootPreimage(h, r.origin, RedeemOf(p, u)))
    && DecodeLedger(u.ledger).Ok?
    && r.ownerKey == DecodeLedger(u.ledger).value.ownerKey
    && r.config == DecodeLedger(u.ledger).value.config
  }

  lemma GenesisHolds(h: Hashes, p: Profile, r: Round, u: Live)
    requires GenesisLive(h, p, r, u)
    ensures Holds(h, p, r, u, GenesisOf(r))
    ensures u.ledger == LedgerBytes(GenesisOf(r))
  {
    hide LedgerBytes, DecodeLedger, LedgerScript, RootPreimage, U32, U63;
    var s := DecodeLedger(u.ledger).value;
    EncodeOfDecode(u.ledger);
    GenesisEdit(s);
    NewOpenDecodable(s);
    LedgerReads(s);
    NewOpenValid(r.ownerKey, r.config);
  }

  lemma NewOpenValid(ownerKey: Bytes, config: Config)
    requires |ownerKey| == KEY_BYTES && ValidConfig(config)
    ensures ValidLedger(NewOpen(ownerKey, config)) && ValueOf(NewOpen(ownerKey, config)) == DEPOSIT
  {
  }

  /** OPEN refuses to spend a covenant genesis that already holds tickets, a cursor or a directory. */
  lemma GenesisMustBeZeroTicket(h: Hashes, p: Profile, r: Round, u: Live, e: Env, v: Verdict)
    requires LedgerSized(u.ledger) && u.to == OpenModule && GoodOrigin(r.origin)
    requires r.id == h.covenantId(RootPreimage(h, r.origin, RedeemOf(p, u)))
    requires AcceptedSpend(h, p, r, u, e, v)
    requires Unmatched(h.blake2b, RedeemOf(p, u))
    requires Unmatched(h.covenantId, RootPreimage(h, r.origin, RedeemOf(p, u)))
    ensures Open.GenesisLedger(u.ledger) == u.ledger
  {
    hide LedgerScript, P2sh, Execute, Unmatched, WitnessOf, Open.Spend, ValidTransaction, RootPreimage,
      Open.GenesisLedger, Open.CheckRoot;
    var m: Module, ledger: Bytes :| Execute(h, p, e, m, ledger) == Val(v);
    OnlyCommittedRuns(h, p, r, u, e, m, ledger);
    var a := OpenExecuted(h, p, e, ledger);
    var tail := RootChecked(h, p, e, ledger, a);
    ForeignGenesis(h, p, r, u.ledger, e, a, tail);
  }

  lemma RootChecked(h: Hashes, p: Profile, e: Env, ledger: Bytes, a: Open.Args) returns (tail: Bytes)
    requires Matched(e) && Open.Spend(h, p, e, ledger, a).Val?
    ensures e.utxos[0].covenantId.Some? && |ledger| >= HEADER_BYTES
    ensures Open.CheckRoot(h, e, ledger, a, tail).Val?
  {
    hide Open.CheckRoot, Open.CheckLedger, Open.Buy, Open.Close, FeeMatches, AuthenticatedTail, CovInputs;
    tail := Entry(h, e, ledger, 2, a.programTailBytes, a.actorPk).value;
  }

  lemma ForeignGenesis(h: Hashes, p: Profile, r: Round, g: Bytes, e: Env, a: Open.Args, tail: Bytes)
    requires LedgerSized(g) && GoodOrigin(r.origin) && Matched(e)
    requires e.utxos[0].covenantId == Some(r.id)
    requires r.id == h.covenantId(RootPreimage(h, r.origin, LedgerScript(g, p.open.tail)))
    requires Unmatched(h.blake2b, LedgerScript(g, p.open.tail))
    requires Unmatched(h.covenantId, RootPreimage(h, r.origin, LedgerScript(g, p.open.tail)))
    requires Open.CheckRoot(h, e, g, a, tail).Val?
    ensures Open.GenesisLedger(g) == g
  {
    hide LedgerScript, P2sh, ScriptFor, Open.GenesisLedger, RootPreimage, Le;
    var x := Open.GenesisLedger(g);
    ScriptForIsLedgerScript(x, tail);
    RootPreimageSpelled(h, a.originTxId, a.originIndex, LedgerScript(x, tail));
    ZeroDigits();
    assert P2sh(h.blake2b(LedgerScript(x, tail))).version == 0 by { P2shVersion(h.blake2b(LedgerScript(x, tail))); }
    SameRootSameScript(h, Outpoint(a.originTxId, a.originIndex), r.origin, LedgerScript(x, tail), LedgerScript(g, p.open.tail));
    LedgerScriptInjective(x, tail, g, p.open.tail);
  }

  lemma SameRootSameScript(h: Hashes, a: Outpoint, b: Outpoint, x: Bytes, y: Bytes)
    requires GoodOrigin(a) && GoodOrigin(b)
    requires h.covenantId(RootPreimage(h, a, x)) == h.covenantId(RootPreimage(h, b, y))
    requires Unmatched(h.blake2b, y) && Unmatched(h.covenantId, RootPreimage(h, b, y))
    ensures x == y && a == b
  {
    hide RootPreimage, P2sh;
    assert RootPreimage(h, a, x) == RootPreimage(h, b, y);
    RootPreimageNamesOrigin(h, a, b, x, y);
    RootPreimageNamesScript(h, a, x, y);
  }

  lemma RootPreimageNamesScript(h: Hashes, o: Outpoint, x: Bytes, y: Bytes)
    requires GoodOrigin(o) && RootPreimage(h, o, x) == RootPreimage(h, o, y)
    ensures h.blake2b(x) == h.blake2b(y)
  {
    hide Le, P2sh;
    var head := o.transactionId + Le(o.index, 4) + Le(1, 8);
    var mid := Le(0, 4) + Le(DEPOSIT, 8) + Le(0, 2) + Le(35, 8);
    var px, py := P2sh(h.blake2b(x)).script, P2sh(h.blake2b(y)).script;
    assert RootPreimage(h, o, x)[|head|..] == mid + px;
    assert RootPreimage(h, o, y)[|head|..] == mid + py;
    assert (mid + px)[|mid|..] == px && (mid + py)[|mid|..] == py;
    P2shScripts(h.blake2b(x), h.blake2b(y));
  }

  lemma P2shVersion(d: Digest)
    ensures P2sh(d).version == 0
  {
  }

  lemma P2shScripts(a: Digest, b: Digest)
    requires P2sh(a).script == P2sh(b).script
    ensures a == b
  {
    P2shInjective(a, b);
  }

  // ---------------------------------------------------------------- runs

  datatype Spent = Spent(e: Env, verdict: Verdict, daa: int, txId: Bytes)

  /** `us[i + 1]` is the state output that the accepted spend `steps[i]` of `us[i]` created. */
  ghost predicate IsRun(h: Hashes, p: Profile, r: Round, us: seq<Live>, steps: seq<Spent>) {
    && |us| == |steps| + 1
    && forall i {:trigger steps[i]} | 0 <= i < |steps| :: IsStep(h, p, r, us[i], steps[i], us[i + 1])
  }

  ghost predicate IsStep(h: Hashes, p: Profile, r: Round, u: Live, x: Spent, next: Live) {
    && AcceptedSpend(h, p, r, u, x.e, x.verdict)
    && Unmatched(h.blake2b, RedeemOf(p, u))
    && x.verdict.Continue?
    && |x.txId| == 32
    && |x.e.tx.outputs| > 0
    && next == Successor0(x.e, x.verdict.to, x.verdict.ledger, x.daa, x.txId)
  }

  /** Any output that a run reaches is the state output of exactly one valid ledger of the round. */
  lemma {:induction false} RunHolds(h: Hashes, p: Profile, r: Round, us: seq<Live>, steps: seq<Spent>, i: nat)
    requires IsRun(h, p, r, us, steps) && TemplatesBind(h, p) && i < |us|
    requires GenesisLive(h, p, r, us[0])
    ensures DecodeLedger(us[i].ledger).Ok?
    ensures Holds(h, p, r, us[i], DecodeLedger(us[i].ledger).value)
  {
    hide ValidLedger, LedgerBytes, DecodeLedger, Rooted, AcceptedSpend, MovesTo, TemplatesBind, GenesisLive, Unmatched;
    if i == 0 {
      GenesisHolds(h, p, r, us[0]);
      DecodeOfEncode(GenesisOf(r));
    } else {
      RunHolds(h, p, r, us, steps, i - 1);
      var s, x := DecodeLedger(us[i - 1].ledger).value, steps[i - 1];
      AcceptedStep(h, p, r, us[i - 1], s, x.e, x.verdict);
      var m: Move :| MovesTo(h, p, r, s, x.e, m, x.verdict);
      assert CanMove(s, m) by { CanMoveOf(h, p, r, s, x.e, m, x.verdict); }
      StepHolds(h, p, r, us[i - 1], s, x.e, m, x.verdict, x.daa, x.txId);
      DecodeOfEncode(Moved(s, m));
    }
  }

  /** A step of a run is a ledger-level move. */
  lemma RunMoves(h: Hashes, p: Profile, r: Round, us: seq<Live>, steps: seq<Spent>, i: nat) returns (m: Move)
    requires IsRun(h, p, r, us, steps) && TemplatesBind(h, p) && i < |steps|
    requires GenesisLive(h, p, r, us[0])
    ensures DecodeLedger(us[i].ledger).Ok? && CanMove(DecodeLedger(us[i].ledger).value, m)
    ensures DecodeLedger(us[i + 1].ledger) == Ok(Moved(DecodeLedger(us[i].ledger).value, m))
  {
    hide ValidLedger, LedgerBytes, DecodeLedger, Rooted, AcceptedSpend, MovesTo, TemplatesBind, GenesisLive, Unmatched, CanMove;
    RunHolds(h, p, r, us, steps, i);
    var s, x := DecodeLedger(us[i].ledger).value, steps[i];
    AcceptedStep(h, p, r, us[i], s, x.e, x.verdict);
    m :| MovesTo(h, p, r, s, x.e, m, x.verdict);
    CanMoveOf(h, p, r, s, x.e, m, x.verdict);
    StepHolds(h, p, r, us[i], s, x.e, m, x.verdict, x.daa, x.txId);
    DecodeOfEncode(Moved(s, m));
  }

  lemma CanMoveOf(h: Hashes, p: Profile, r: Round, s: Ledger, e: Env, m: Move, v: Verdict)
    requires MovesTo(h, p, r, s, e, m, v)
    ensures CanMove(s, m) && Decodable(Moved(s, m)) && v == Continue(PhaseModule(Moved(s, m).phase), LedgerBytes(Moved(s, m)))
  {
  }

  /** The lineage invariant: on every run from a zero-ticket genesis, every state output carries bytes that decode to a
      valid ledger, holds exactly that ledger's value, and rebuilds the very same genesis ledger, whose script is the one
      that the covenant id commits to. */
  lemma LineageInvariant(h: Hashes, p: Profile, r: Round, us: seq<Live>, steps: seq<Spent>, i: nat)
    requires IsRun(h, p, r, us, steps) && TemplatesBind(h, p) && i < |us|
    requires GenesisLive(h, p, r, us[0])
    ensures var d := DecodeLedger(us[i].ledger);
            && d.Ok?
            && ValidateLedger(d.value).Ok?
            && ValidLedger(d.value)
            && us[i].value == ValueOf(d.value)
            && us[i].to == PhaseModule(d.value.phase)
    ensures Open.GenesisLedger(us[i].ledger) == us[0].ledger
    ensures RootId(h, r.origin, RedeemOf(p, us[0])) == Ok(r.id)
  {
    hide ValidLedger, LedgerBytes, DecodeLedger, RootPreimage, ValidateLedger, AcceptedSpend, Open.GenesisLedger, LedgerScript,
      RootId, Open.CheckLedger, IsRun;
    RunHolds(h, p, r, us, steps, i);
    var s := DecodeLedger(us[i].ledger).value;
    ValidateIsValid(s);
    GenesisEdit(s);
    LedgerSlices(s);
    GenesisHolds(h, p, r, us[0]);
    RootIdHashesRootPreimage(h, r.origin, RedeemOf(p, us[0]));
  }
}
