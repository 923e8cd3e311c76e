/** The client's reader and the templates agree on every spend of a round's state output. */
module ContractReader {
  import opened Results
  import opened Bytes
  import opened Layout
  import opened State
  import opened Directory
  import opened Scripts
  import opened Tx
  import opened Frames
  import opened Draws
  import opened Sil
  import opened LedgerEdits
  import opened ContractSteps
  import opened Spends
  import opened Lineage
  import opened ReaderWitness
  import P = Protocol
  import A = Accepted
  import Open
  import Sealed

  // ---------------------------------------------------------------- amounts

  function ValuesOf(utxos: seq<Utxo>): (vs: seq<int>)
    ensures |vs| == |utxos|
  {
    seq(|utxos|, i requires 0 <= i < |utxos| => utxos[i].value)
  }

  lemma {:induction false} SumOfValues(utxos: seq<Utxo>)
    ensures A.Sum(ValuesOf(utxos)) == TotalIn(utxos)
  {
    if utxos != [] {
      var n := |utxos| - 1;
      SumOfValues(utxos[..n]);
      assert ValuesOf(utxos)[..n] == ValuesOf(utxos[..n]);
    }
  }

  lemma {:induction false} SumFirst(vs: seq<int>)
    requires vs != []
    ensures A.Sum(vs) == vs[0] + A.Sum(vs[1..])
  {
    var n := |vs| - 1;
    if n == 0 {
      assert vs[..0] == [] && vs[1..] == [];
    } else {
      SumFirst(vs[..n]);
      assert vs[1..][..n - 1] == vs[..n][1..];
    }
  }

  /** The reader's fee and external value are the node's. */
  lemma FundingAgrees(x: P.Snapshot, e: Env, w: A.SpendInfo)
    requires Matched(e) && e.utxos[0].value == x.value
    ensures var r := A.CheckedFunding(x, e.tx, w, Some(ValuesOf(e.utxos)));
            && (r.Ok? <==> FeeMatches(e, w.witnessFee))
            && (r.Ok? ==> r.value == (TotalIn(e.utxos) - x.value, w.witnessFee))
  {
    hide TotalIn, TotalOut, A.Sum;
    var vs := ValuesOf(e.utxos);
    SumOfValues(e.utxos);
    SumFirst(vs);
    assert AmountsPayable(e) ==> forall i | 0 <= i < |vs| :: Payable(vs[i]);
    assert (forall i | 0 <= i < |vs| :: Payable(vs[i])) ==> forall i | 0 <= i < |e.utxos| :: Payable(e.utxos[i].value) by {
      assert forall i | 0 <= i < |vs| :: vs[i] == e.utxos[i].value;
    }
  }

  // ---------------------------------------------------------------- outputs

  /** No covenant binding carries the all-zero id. */
  predicate NoZeroCovenant(tx: Transaction) {
    forall i | 0 <= i < |tx.outputs| :: tx.outputs[i].covenant.Some? ==> tx.outputs[i].covenant.value.covenantId != ZERO
  }

  lemma OrdinaryAgrees(e: Env, index: int, value: int, key: Bytes)
    requires NoZeroCovenant(e.tx)
    ensures Ordinary(e, index, value, key) <==> 0 <= index && A.PaysAs(e.tx, index, value, key)
  {
  }

  lemma FamilyHead(tx: Transaction, id: Bytes)
    requires CovOutputs(tx, id) == [0]
    ensures |tx.outputs| > 0 && tx.outputs[0].covenant.Some? && tx.outputs[0].covenant.value.covenantId == id
  {
    WhereFirst(seq(|tx.outputs|, i requires 0 <= i < |tx.outputs| =>
      tx.outputs[i].covenant.Some? && tx.outputs[i].covenant.value.covenantId == id));
  }

  lemma AuthorizedHead(tx: Transaction)
    requires AuthOutputs(tx, 0) == [0]
    ensures |tx.outputs| > 0 && tx.outputs[0].covenant.Some? && tx.outputs[0].covenant.value.authorizingInput == 0
  {
    WhereFirst(seq(|tx.outputs|, i requires 0 <= i < |tx.outputs| =>
      tx.outputs[i].covenant.Some? && tx.outputs[i].covenant.value.authorizingInput == 0));
  }

  /** The successor comparison is the template's, but for outputs of other covenants authorised by input 0. */
  lemma SuccessorAgrees(h: Hashes, p: Profile, x: P.Snapshot, e: Env, w: A.SpendInfo, f: A.Effect, n: Ledger)
    requires f.next == Some(n) && ValidLedger(n) && Decodable(n) && |f.roles| == |e.tx.outputs| > 0
    ensures Continues(h, p, e, x.covenantId, n, ValueOf(n)) && (PhaseModule(n.phase) != w.to ==> w.nextTail == TailOf(p, n))
       <==> A.ReadSuccessor(h, p, x, w, e.tx, f).Ok? && AuthOutputs(e.tx, 0) == [0]
  {
    hide ValidLedger, ValueOf, ScriptOf, P2sh, CovOutputs, AuthOutputs, ValidateLedger, Decodable;
    ValidateIsValid(n);
    if CovOutputs(e.tx, x.covenantId) == [0] {
      FamilyHead(e.tx, x.covenantId);
    }
    if AuthOutputs(e.tx, 0) == [0] {
      AuthorizedHead(e.tx);
    }
  }

  lemma TerminalAgrees(h: Hashes, p: Profile, x: P.Snapshot, e: Env, w: A.SpendInfo, f: A.Effect)
    requires f.next == None && f.terminal.Some? && |f.roles| == |e.tx.outputs| > 0
    ensures A.ReadSuccessor(h, p, x, w, e.tx, f).Ok? <==> CovOutputs(e.tx, x.covenantId) == []
  {
    hide CovOutputs;
  }

  // ---------------------------------------------------------------- the node's own rules

  /** What the node guarantees about a transaction it accepts at DAA score `currentDaa`: an input-0 lock time below the
      DAA threshold has passed, a relative lock has matured, and no covenant has the all-zero id. */
  predicate NodeRules(e: Env, currentDaa: int)
    requires Matched(e)
  {
    var sequence := e.tx.inputs[0].sequence;
    && 1 <= currentDaa < DAA_LIMIT
    && 0 <= e.utxos[0].daa < DAA_LIMIT
    && (0 < e.tx.lockTime < DAA_LIMIT && sequence != MAX_SEQUENCE ==> e.tx.lockTime < currentDaa)
    && (0 <= sequence < 0x8000_0000_0000_0000 ==> currentDaa >= e.utxos[0].daa + sequence % 0x1_0000_0000)
    && NoZeroCovenant(e.tx)
    && DistinctInputs(e.tx)
  }

  function ExpectedAuth(f: A.Effect): seq<nat> {
    if f.next.Some? then [0] else []
  }

  /** The snapshot `x` describes the output that input 0 spends. */
  predicate Describes(x: P.Snapshot, e: Env)
    requires Matched(e)
  {
    && e.utxos[0].covenantId == Some(x.covenantId)
    && e.utxos[0].value == x.value
    && e.utxos[0].daa == x.utxoDaa
    && e.tx.inputs[0].previousOutpoint == x.tip
    && 0 <= x.tip.index
    && 0 <= e.tx.inputs[0].sequence
    && NodeRules(e, x.currentDaa)
  }

  // ---------------------------------------------------------------- OPEN

  lemma QuantityAgrees(data: Bytes)
    ensures |data| == 4 && U32(data, 0).Val? <==> A.DataU32(data).Ok?
    ensures A.DataU32(data).Ok? ==> U32(data, 0) == Val(A.DataU32(data).value)
  {
    if |data| == 4 {
      SignByte(data);
      Pow256Values();
      assert Pow256(3) == 256 * Pow256(2);
      assert data[0..4] == data;
    }
  }

  lemma BuyAgrees(h: Hashes, p: Profile, x: P.Snapshot, e: Env, s: Ledger, a: Open.Args, w: A.SpendInfo, fee: int,
                  external: int)
    requires Matched(e) && Describes(x, e) && |e.tx.outputs| > 0
    requires ValidLedger(s) && Decodable(s) && s.phase == OPEN && x.value == ValueOf(s)
    requires w.action == P.BUY && w.to == OpenModule
    requires w.actorKey == a.actorPk && w.data == a.data && w.nextTail == a.nextTail
    ensures var r := A.ReadStep(h, p, x, s, w, e.tx, fee, external);
            && (BuyStep(h, p, e, s, a) <==> r.Ok? && AuthOutputs(e.tx, 0) == [0])
            && (r.Ok? ==> r.value.0.next.Some? && r.value.0.terminal == None && r.value.0.draw == None
                          && U32(a.data, 0).Val? && CanBuy(s, U32(a.data, 0).value, a.actorPk)
                          && r.value.0.next.value == Bought(s, U32(a.data, 0).value, a.actorPk))
  {
    hide ValidLedger, Decodable, ValueOf, Continues, CanBuy, U32, A.DataU32, A.ReadSuccessor, AppendPurchase, AuthOutputs,
      Cost, NodeRules, PhaseModule;
    QuantityAgrees(a.data);
    if A.DataU32(a.data).Ok? {
      var q := U32(a.data, 0).value;
      AppendIsBought(s, q, a.actorPk);
      var f := A.ReadBuy(s, w, e.tx);
      if CanBuy(s, q, a.actorPk) {
        PurchaseKeepsValid(s, q, a.actorPk);
        ValidParts(Bought(s, q, a.actorPk));
        OpenIsOpen(s, q, a.actorPk);
        if f.Ok? {
          SuccessorAgrees(h, p, x, e, w, f.value, Bought(s, q, a.actorPk));
        }
      }
    }
  }

  lemma OpenIsOpen(s: Ledger, quantity: int, buyer: Bytes)
    requires s.phase == OPEN && 0 <= s.sold + quantity
    ensures PhaseModule(Bought(s, quantity, buyer).phase) == OpenModule
  {
  }

  lemma CloseAgrees(h: Hashes, p: Profile, x: P.Snapshot, e: Env, s: Ledger, a: Open.Args, w: A.SpendInfo, fee: int,
                    external: int)
    requires Matched(e) && Describes(x, e) && |e.tx.outputs| > 0
    requires ValidLedger(s) && Decodable(s) && s.phase == OPEN && x.value == ValueOf(s)
    requires w.action == P.CLOSE && w.to == OpenModule
    requires w.actorKey == a.actorPk && w.data == a.data && w.nextTail == a.nextTail
    ensures var r := A.ReadStep(h, p, x, s, w, e.tx, fee, external);
            && (CloseStep(h, p, e, s, a) <==> r.Ok? && AuthOutputs(e.tx, 0) == ExpectedAuth(r.value.0))
            && (r.Ok? ==> r.value.0.draw == None)
            && (r.Ok? ==> if s.sold == 0 then r.value.0.next == None && r.value.0.terminal == Some(EMPTY)
                          else r.value.0.next == Some(Closed(s)) && r.value.0.terminal == None)
  {
    hide ValidLedger, Decodable, ValueOf, Continues, A.ReadSuccessor, AuthOutputs, CovOutputs, Cost, Ordinary, A.PaysAs,
      NoZeroCovenant;
    CloseLock(x, e, s);
    OrdinaryAgrees(e, 0, DEPOSIT, s.ownerKey);
    var f := A.ReadClose(x, s, w, e.tx);
    if f.Ok? {
      if s.sold == 0 {
        TerminalAgrees(h, p, x, e, w, f.value);
      } else {
        ValidParts(s);
        ClosedValid(s);
        ValidParts(Closed(s));
        SuccessorAgrees(h, p, x, e, w, f.value, Closed(s));
      }
    }
  }

  /** A passed close lock puts the round past its close score. */
  lemma CloseLock(x: P.Snapshot, e: Env, s: Ledger)
    requires Matched(e) && Describes(x, e) && ValidLedger(s)
    ensures LockedUntil(e, s.config.closeEligibleDaa - 1) ==> x.currentDaa >= s.config.closeEligibleDaa
    ensures LockedUntil(e, s.config.closeEligibleDaa - 1)
       <==> s.config.closeEligibleDaa - 1 <= e.tx.lockTime < DAA_LIMIT && e.tx.inputs[0].sequence != MAX_SEQUENCE
  {
    hide StartAt, EndAt, Ascending;
  }

  // ---------------------------------------------------------------- SEALED

  lemma OpeningNumberAgrees(proof: Bytes, at: nat)
    requires at + 8 <= |proof|
    ensures U63(proof, at).Val? <==> P.OpeningNumber(proof, at).Ok?
    ensures P.OpeningNumber(proof, at).Ok? ==> U63(proof, at) == Val(P.OpeningNumber(proof, at).value)
  {
    SignByte(proof[at..at + 8]);
    Pow256Values();
  }

  /** What the client requires of an opening's six numbers. */
  predicate Claims(proof: Bytes, boundary: int)
    requires |proof| == OPENING_BYTES
  {
    && P.OpeningNumber(proof, 224).Ok? && P.OpeningNumber(proof, 104).Ok? && P.OpeningNumber(proof, 112).Ok?
    && P.OpeningNumber(proof, 232).Ok? && P.OpeningNumber(proof, 96).Ok? && P.OpeningNumber(proof, 216).Ok?
    && P.OpeningNumber(proof, 224).value < boundary <= P.OpeningNumber(proof, 104).value < DAA_LIMIT
    && P.OpeningNumber(proof, 112).value > P.OpeningNumber(proof, 232).value
  }

  lemma ClaimsAgree(proof: Bytes, boundary: int)
    requires |proof| == OPENING_BYTES
    ensures Claims(proof, boundary)
       <==> && U63(proof, 224).Val? && U63(proof, 104).Val? && U63(proof, 112).Val? && U63(proof, 232).Val?
            && U63(proof, 96).Val? && U63(proof, 216).Val?
            && U63(proof, 224).value < boundary <= U63(proof, 104).value < DAA_LIMIT
            && U63(proof, 112).value > U63(proof, 232).value
  {
    hide U63, P.OpeningNumber;
    OpeningNumberAgrees(proof, 96);
    OpeningNumberAgrees(proof, 104);
    OpeningNumberAgrees(proof, 112);
    OpeningNumberAgrees(proof, 216);
    OpeningNumberAgrees(proof, 224);
    OpeningNumberAgrees(proof, 232);
  }

  lemma DrawAuthenticates(h: Hashes, x: P.Snapshot, s: Ledger, proof: Bytes)
    requires Decodable(s) && s.phase == SEALED && |proof| == OPENING_BYTES && x.tip.index >= 0
    ensures var r := P.AuthenticateDraw(h, x, s, proof, P.Accessor(proof[..32], TargetSeq(h, proof)));
            && |LedgerBytes(s)| >= HEADER_BYTES
            && (r.Ok? <==> && 0 <= x.utxoDaa < DAA_LIMIT - TIMEOUT_DELAY && x.currentDaa >= x.utxoDaa + DRAW_DELAY
                           && Claims(proof, x.utxoDaa + DRAW_DELAY))
            && (r.Ok? ==> r.value.seed == Seed(h, x.covenantId, x.tip, LedgerBytes(s), x.utxoDaa + DRAW_DELAY, proof))
  {
    hide LedgerBytes, P.OpeningNumber, TargetSeq, Seed;
    LedgerSlices(s);
  }

  lemma AgeReached(x: P.Snapshot, e: Env, n: int)
    requires Matched(e) && Describes(x, e) && AgedBy(e, n)
    ensures x.currentDaa >= x.utxoDaa + n
  {
    hide NoZeroCovenant, DistinctInputs;
  }

  /** The template's checks on an opening are the client's, plus the input's age and the native accessor. */
  lemma OpeningAgrees(h: Hashes, x: P.Snapshot, e: Env, s: Ledger, proof: Bytes)
    requires Matched(e) && Describes(x, e) && Decodable(s) && s.phase == SEALED && |proof| == OPENING_BYTES
    ensures var r := P.AuthenticateDraw(h, x, s, proof, P.Accessor(proof[..32], TargetSeq(h, proof)));
            && (OpeningOk(h, e, proof)
                <==> r.Ok? && AgedBy(e, DRAW_DELAY) && e.seqCommit(proof[..32]) == Some(TargetSeq(h, proof)))
            && (OpeningOk(h, e, proof) ==> r.value.seed == SeedOf(h, e, s, proof))
  {
    hide Decodable, LedgerBytes, U63, P.AuthenticateDraw, Claims, AgedBy, TargetSeq, Seed, NodeRules;
    DrawAuthenticates(h, x, s, proof);
    ClaimsAgree(proof, x.utxoDaa + DRAW_DELAY);
    if AgedBy(e, DRAW_DELAY) {
      AgeReached(x, e, DRAW_DELAY);
    }
  }

  lemma HintAgrees(data: Bytes)
    requires |data| == 244
    ensures U32(data, 240).Val? <==> A.DataU32(data[240..]).Ok?
    ensures A.DataU32(data[240..]).Ok? ==> U32(data, 240) == Val(A.DataU32(data[240..]).value)
  {
    QuantityAgrees(data[240..]);
    assert data[240..244] == data[240..][0..4] == data[240..];
  }

  /** With an authenticated opening, the hint that pays out is the record that the client draws. */
  lemma PayoutAgrees(x: P.Snapshot, e: Env, s: Ledger, value: nat, hint: nat, executor: Bytes, fee: int)
    requires Matched(e) && Describes(x, e) && ValidLedger(s) && s.sold > 0
    ensures e.utxos[0].covenantId.Some?
    ensures PayoutStep(e, s, value % s.sold, hint, executor, fee)
       <==> && |e.tx.inputs| == 1 && |e.tx.outputs| == 3 && fee <= MAX_PAY_FEE
            && hint < s.purchaseCount && P.RecordOfTicket(s, value % s.sold) == Ok(hint)
            && Prize(s, fee) >= MIN_PRICE
            && A.PaysAs(e.tx, 0, Prize(s, fee), KeyAt(s.directory, hint))
            && A.PaysAs(e.tx, 1, DEPOSIT, s.ownerKey)
            && A.PaysAs(e.tx, 2, FINALIZER, executor)
  {
    hide ValidLedger, StartAt, EndAt, KeyAt, P.RecordOfTicket, Cost, AuthOutputs, CovOutputs, Ordinary, A.PaysAs;
    ValidParts(s);
    assert NoZeroCovenant(e.tx);
    if hint < s.purchaseCount {
      P.WinnerUnique(s, value % s.sold, hint);
      OrdinaryAgrees(e, 0, Prize(s, fee), KeyAt(s.directory, hint));
      OrdinaryAgrees(e, 1, DEPOSIT, s.ownerKey);
      OrdinaryAgrees(e, 2, FINALIZER, executor);
      if |e.tx.outputs| == 3 && A.PaysAs(e.tx, 0, Prize(s, fee), KeyAt(s.directory, hint))
         && A.PaysAs(e.tx, 1, DEPOSIT, s.ownerKey) && A.PaysAs(e.tx, 2, FINALIZER, executor) {
        ThreePlain(e, Prize(s, fee), KeyAt(s.directory, hint), s.ownerKey, executor, x.covenantId);
      }
    }
  }

  lemma ThreePlain(e: Env, prize: int, winner: Bytes, owner: Bytes, executor: Bytes, id: Bytes)
    requires |e.tx.outputs| == 3 && A.PaysAs(e.tx, 0, prize, winner) && A.PaysAs(e.tx, 1, DEPOSIT, owner)
    requires A.PaysAs(e.tx, 2, FINALIZER, executor)
    ensures TerminalShape(e, id, 3)
  {
    assert forall i | 0 <= i < |e.tx.outputs| :: e.tx.outputs[i].covenant == None;
    PlainOutputs(e.tx, id);
  }

  lemma PlainOutputs(tx: Transaction, id: Bytes)
    requires forall i | 0 <= i < |tx.outputs| :: tx.outputs[i].covenant == None
    ensures AuthOutputs(tx, 0) == [] && CovOutputs(tx, id) == []
  {
    WhereNone(seq(|tx.outputs|, i requires 0 <= i < |tx.outputs| =>
      tx.outputs[i].covenant.Some? && tx.outputs[i].covenant.value.covenantId == id));
    WhereNone(seq(|tx.outputs|, i requires 0 <= i < |tx.outputs| =>
      tx.outputs[i].covenant.Some? && tx.outputs[i].covenant.value.authorizingInput == 0));
  }

  lemma AgeAgrees(x: P.Snapshot, e: Env, n: int)
    requires Matched(e) && Describes(x, e) && n >= 0
    ensures A.Age(x, e.tx, n).Ok? <==> AgedBy(e, n)
  {
  }

  /** What the reader's DRAW_AND_PAY branch requires, spelled out. */
  predicate ReaderDraws(h: Hashes, x: P.Snapshot, s: Ledger, w: A.SpendInfo, tx: Transaction, fee: int)
    requires ValidLedger(s) && Decodable(s) && s.sold >= 3 && x.tip.index >= 0 && tx.inputs != []
  {
    && |tx.inputs| == 1 && |tx.outputs| == 3 && |w.data| == 244 && w.nextTail == []
    && A.Age(x, tx, DRAW_DELAY).Ok?
    && var proof := w.data[..240];
    && var draw := P.AuthenticateDraw(h, x, s, proof, P.Accessor(proof[..32], TargetSeq(h, proof)));
    && draw.Ok?
    && var value := SampleValue(h, draw.value.seed);
    && value < Limit(s.sold)
    && A.DataU32(w.data[240..]).Ok?
    && var hint := A.DataU32(w.data[240..]).value;
    && hint < s.purchaseCount
    && P.RecordOfTicket(s, value % s.sold) == Ok(hint)
    && fee == w.witnessFee && fee <= MAX_PAY_FEE
    && Prize(s, fee) >= MIN_PRICE
    && A.PaysAs(tx, 0, Prize(s, fee), KeyAt(s.directory, hint))
    && A.PaysAs(tx, 1, DEPOSIT, s.ownerKey)
    && A.PaysAs(tx, 2, FINALIZER, w.actorKey)
  }

  lemma ReadDrawIs(h: Hashes, x: P.Snapshot, s: Ledger, w: A.SpendInfo, tx: Transaction, fee: int)
    requires ValidLedger(s) && Decodable(s) && s.sold >= 3 && x.tip.index >= 0 && tx.inputs != []
    ensures A.ReadDraw(h, x, s, w, tx, fee).Ok? <==> ReaderDraws(h, x, s, w, tx, fee)
    ensures A.ReadDraw(h, x, s, w, tx, fee).Ok? ==>
              var f := A.ReadDraw(h, x, s, w, tx, fee).value;
              && f.next == None && f.terminal == Some(PAID)
              && f.draw.Some? && f.draw.value.target == w.data[..240][..32]
              && f.draw.value.seqCommit == TargetSeq(h, w.data[..240])
              && f.winner.Some? && A.DataU32(w.data[240..]) == Ok(f.winner.value.record)
  {
    hide ValidLedger, Decodable, Cost, A.PaysAs, P.AuthenticateDraw, TargetSeq, SampleValue, Limit, P.RecordOfTicket,
      KeyAt, Records, A.Age, A.DataU32, StartAt, EndAt, CountAt;
    ValidParts(s);
    ValidRecords(s);
    if |w.data| == 244 {
      assert w.data[..240][..32] == w.data[..32];
    }
  }

  lemma DrawAgrees(h: Hashes, p: Profile, x: P.Snapshot, e: Env, s: Ledger, a: Sealed.Args, w: A.SpendInfo, external: int)
    requires Matched(e) && Describes(x, e) && |e.tx.outputs| > 0
    requires ValidLedger(s) && Decodable(s) && s.phase == SEALED && s.sold >= 3
    requires w.action == P.DRAW_AND_PAY && w.to == SealedModule
    requires w.actorKey == a.actorPk && w.data == a.data && w.nextTail == a.nextTail && w.witnessFee == a.fee
    ensures var r := A.ReadStep(h, p, x, s, w, e.tx, a.fee, external);
            && (r.Ok? <==> ReaderDraws(h, x, s, w, e.tx, a.fee))
            && (DrawStep(h, e, s, a)
                <==> r.Ok? && |a.data| == 244 && e.seqCommit(a.data[..240][..32]) == Some(TargetSeq(h, a.data[..240])))
            && (r.Ok? ==>
                  && r.value.0.next == None && r.value.0.terminal == Some(PAID) && AuthOutputs(e.tx, 0) == []
                  && |a.data| == 244 && r.value.0.draw.Some? && r.value.0.draw.value.target == a.data[..240][..32]
                  && r.value.0.draw.value.seqCommit == TargetSeq(h, a.data[..240]))
  {
    hide ReaderDraws, ValidLedger, Decodable, A.ReadDraw, A.ReadSuccessor, DrawStep, NodeRules, TargetSeq, AuthOutputs;
    ReadDrawIs(h, x, s, w, e.tx, a.fee);
    ReaderDrawsPlain(h, x, s, w, e.tx, a.fee);
    DrawStepReads(h, x, e, s, a, w);
    var f := A.ReadDraw(h, x, s, w, e.tx, a.fee);
    if f.Ok? {
      TerminalAgrees(h, p, x, e, w, f.value);
    }
  }

  lemma ReaderDrawsPlain(h: Hashes, x: P.Snapshot, s: Ledger, w: A.SpendInfo, tx: Transaction, fee: int)
    requires ValidLedger(s) && Decodable(s) && s.sold >= 3 && x.tip.index >= 0 && tx.inputs != []
    ensures ReaderDraws(h, x, s, w, tx, fee) ==> AuthOutputs(tx, 0) == [] && CovOutputs(tx, x.covenantId) == []
    ensures ReaderDraws(h, x, s, w, tx, fee) ==> |w.data| == 244
  {
    hide ValidLedger, Decodable, AuthOutputs, CovOutputs, P.AuthenticateDraw, TargetSeq, SampleValue, Limit,
      P.RecordOfTicket, KeyAt, A.Age, A.DataU32;
    if ReaderDraws(h, x, s, w, tx, fee) {
      PlainOutputs(tx, x.covenantId);
    }
  }

  lemma DrawStepReads(h: Hashes, x: P.Snapshot, e: Env, s: Ledger, a: Sealed.Args, w: A.SpendInfo)
    requires Matched(e) && Describes(x, e)
    requires ValidLedger(s) && Decodable(s) && s.phase == SEALED && s.sold >= 3
    requires w.actorKey == a.actorPk && w.data == a.data && w.nextTail == a.nextTail && w.witnessFee == a.fee
    ensures DrawStep(h, e, s, a)
       <==> && ReaderDraws(h, x, s, w, e.tx, a.fee)
            && |a.data| == 244
            && e.seqCommit(a.data[..240][..32]) == Some(TargetSeq(h, a.data[..240]))
  {
    hide ValidLedger, Decodable, A.PaysAs, P.AuthenticateDraw, OpeningOk, PayoutStep, TargetSeq, SampleValue, Limit,
      P.RecordOfTicket, KeyAt, AgedBy, A.Age, SeedOf, U32, A.DataU32, NodeRules, Prize;
    ValidParts(s);
    AgeAgrees(x, e, DRAW_DELAY);
    if |a.data| == 244 {
      OpeningAgrees(h, x, e, s, a.data[..240]);
      HintAgrees(a.data);
      if OpeningOk(h, e, a.data[..240]) && U32(a.data, 240).Val? {
        PayoutAgrees(x, e, s, SampleValue(h, SeedOf(h, e, s, a.data[..240])), U32(a.data, 240).value, a.actorPk, a.fee);
      }
    }
  }

  lemma TimeoutAgrees(h: Hashes, p: Profile, x: P.Snapshot, e: Env, s: Ledger, a: Sealed.Args, w: A.SpendInfo, fee: int,
                      external: int)
    requires Matched(e) && Describes(x, e) && |e.tx.outputs| > 0
    requires ValidLedger(s) && Decodable(s) && s.phase == SEALED && x.value == ValueOf(s)
    requires w.action == P.TIMEOUT_REFUND && w.to == SealedModule
    requires w.data == a.data && w.nextTail == a.nextTail
    ensures var r := A.ReadStep(h, p, x, s, w, e.tx, fee, external);
            && (TimeoutStep(h, p, e, s, a) <==> r.Ok? && AuthOutputs(e.tx, 0) == [0])
            && (r.Ok? ==> r.value.0.next == Some(s.(phase := REFUNDING)) && r.value.0.terminal == None
                          && r.value.0.draw == None)
  {
    hide ValidLedger, Decodable, ValueOf, Continues, A.ReadSuccessor, AuthOutputs, AgedBy, A.Age, NoZeroCovenant;
    AgeAgrees(x, e, TIMEOUT_DELAY);
    TimedOutValid(s);
    ValidParts(s.(phase := REFUNDING));
    var f := A.ReadTimeout(x, s, w, e.tx);
    if f.Ok? {
      SuccessorAgrees(h, p, x, e, w, f.value, s.(phase := REFUNDING));
    }
  }

  // ---------------------------------------------------------------- REFUNDING

  lemma RefundPaysAs(e: Env, s: Ledger, first: nat, i: nat)
    requires NoZeroCovenant(e.tx) && ValidLedger(s) && 0 <= s.cursor <= i < s.purchaseCount
    ensures Refunds(e, first, s, i)
       <==> A.PaysAs(e.tx, first + i - s.cursor, Cost(CountAt(s.directory, i), s.config.ticketPrice) - REFUND_FEE,
                     KeyAt(s.directory, i))
  {
    hide ValidLedger, StartAt, EndAt, CountAt, KeyAt, Cost;
    ValidParts(s);
    CountBound(s, i);
  }

  lemma RefundsPaidAgrees(e: Env, s: Ledger, first: nat, n: nat)
    requires NoZeroCovenant(e.tx) && ValidLedger(s) && 0 <= s.cursor && s.cursor + n <= s.purchaseCount
    ensures RefundsAll(e, first, s, n)
       <==> A.RefundsPaid(e.tx, RecordList(s.directory, s.purchaseCount), s.config.ticketPrice, s.cursor, first, n)
  {
    hide ValidLedger, StartAt, EndAt, CountAt, KeyAt, Cost, Refunds, A.PaysAs, NoZeroCovenant;
    ValidParts(s);
    var rs := RecordList(s.directory, s.purchaseCount);
    forall i | s.cursor <= i < s.cursor + n
      ensures Refunds(e, first, s, i)
         <==> A.PaysAs(e.tx, first + i - s.cursor, Cost(rs[i].count, s.config.ticketPrice) - REFUND_FEE, rs[i].key)
    {
      RefundPaysAs(e, s, first, i);
    }
    if RefundsAll(e, first, s, n) {
      forall i {:trigger rs[i]} | s.cursor <= i < s.cursor + n
        ensures A.PaysAs(e.tx, first + i - s.cursor, Cost(rs[i].count, s.config.ticketPrice) - REFUND_FEE, rs[i].key)
      {
        assert Refunds(e, first, s, i);
      }
    }
    if A.RefundsPaid(e.tx, rs, s.config.ticketPrice, s.cursor, first, n) {
      forall i | s.cursor <= i < s.cursor + n
        ensures Refunds(e, first, s, i)
      {
        assert rs[i] == RecordAt(s.directory, i);
      }
    }
  }

  lemma BatchAgrees(s: Ledger)
    requires ValidLedger(s) && s.phase == REFUNDING
    ensures P.RefundBatch(s)
         == Ok(P.Batch(BatchSize(s), IsLast(s), Pool(s), if IsLast(s) then DEPOSIT - REFUND_FEE else 0))
    ensures 0 < BatchSize(s)
  {
    hide StartAt, EndAt, Ascending, ValidConfig;
  }

  /** What the reader's REFUND branch requires, spelled out. */
  predicate ReaderRefunds(s: Ledger, w: A.SpendInfo, tx: Transaction, fee: int, external: int)
    requires ValidLedger(s) && s.phase == REFUNDING
  {
    && w.data == [] && w.nextTail == []
    && |tx.outputs| == BatchSize(s) + 2
    && 0 < BatchSize(s) && s.cursor + BatchSize(s) <= s.purchaseCount
    && A.RefundsPaid(tx, RecordList(s.directory, s.purchaseCount), s.config.ticketPrice, s.cursor,
                     if IsLast(s) then 0 else 1, BatchSize(s))
    && (IsLast(s) ==> A.PaysAs(tx, BatchSize(s), DEPOSIT - REFUND_FEE, s.ownerKey))
    && A.PaysAs(tx, BatchSize(s) + 1, external + Pool(s) - fee, w.actorKey)
  }

  lemma ReadRefundIs(s: Ledger, w: A.SpendInfo, tx: Transaction, fee: int, external: int)
    requires ValidLedger(s) && s.phase == REFUNDING
    ensures var r := A.ReadRefund(s, w, tx, fee, external);
            && (r.Ok? <==> ReaderRefunds(s, w, tx, fee, external))
            && (r.Ok? ==> r.value.draw == None && r.value.winner == None
                          && r.value.roles == A.RefundRoles(BatchSize(s), IsLast(s)))
            && (r.Ok? ==> if IsLast(s) then r.value.next == None && r.value.terminal == Some(REFUNDED)
                          else r.value.next == Some(s.(cursor := s.cursor + BatchSize(s))) && r.value.terminal == None)
  {
    hide ValidLedger, StartAt, EndAt, CountAt, KeyAt, Cost, A.PaysAs, P.RefundBatch, Records, A.RefundsPaid, BatchSize,
      IsLast, Pool;
    ValidParts(s);
    ValidRecords(s);
    BatchAgrees(s);
    BatchGrossBound(s);
  }

  /** In a final batch every output is an ordinary payment. */
  lemma LastBatchPlain(s: Ledger, w: A.SpendInfo, tx: Transaction, fee: int, external: int, id: Bytes)
    requires ValidLedger(s) && s.phase == REFUNDING && IsLast(s)
    requires ReaderRefunds(s, w, tx, fee, external)
    ensures AuthOutputs(tx, 0) == [] && CovOutputs(tx, id) == [] && tx.outputs[0].covenant == None
  {
    hide ValidLedger, Cost, AuthOutputs, CovOutputs;
    ValidParts(s);
    var k, rs := BatchSize(s), RecordList(s.directory, s.purchaseCount);
    forall i | 0 <= i < |tx.outputs|
      ensures tx.outputs[i].covenant == None
    {
      if i < k {
        assert A.PaysAs(tx, i, Cost(rs[s.cursor + i].count, s.config.ticketPrice) - REFUND_FEE, rs[s.cursor + i].key);
      }
    }
    PlainOutputs(tx, id);
  }

  lemma RefundAgrees(h: Hashes, p: Profile, x: P.Snapshot, e: Env, s: Ledger, a: Sealed.Args, w: A.SpendInfo)
    requires Matched(e) && Describes(x, e) && |e.tx.outputs| > 0
    requires ValidLedger(s) && Decodable(s) && s.phase == REFUNDING && x.value == ValueOf(s)
    requires w.action == P.REFUND && w.to == RefundingModule
    requires w.actorKey == a.actorPk && w.data == a.data && w.nextTail == a.nextTail
    ensures var r := A.ReadStep(h, p, x, s, w, e.tx, a.fee, TotalIn(e.utxos) - x.value);
            && (RefundStep(h, p, e, s, a) <==> r.Ok? && AuthOutputs(e.tx, 0) == ExpectedAuth(r.value.0))
            && (r.Ok? ==> r.value.0.draw == None)
            && (r.Ok? ==> if IsLast(s) then r.value.0.next == None && r.value.0.terminal == Some(REFUNDED)
                          else r.value.0.next == Some(s.(cursor := s.cursor + BatchSize(s))) && r.value.0.terminal == None)
  {
    hide ValidLedger, Decodable, ValueOf, Continues, A.ReadSuccessor, A.ReadRefund, AuthOutputs, CovOutputs, BatchGross,
      A.RefundsPaid, RefundsAll, TotalIn, NoZeroCovenant, Ordinary, A.PaysAs, BatchSize, IsLast, Pool, PhaseModule;
    ValidParts(s);
    var external, first := TotalIn(e.utxos) - x.value, if IsLast(s) then 0 else 1;
    ReadRefundIs(s, w, e.tx, a.fee, external);
    BatchAgrees(s);
    BatchGrossBound(s);
    RefundsPaidAgrees(e, s, first, BatchSize(s));
    OrdinaryAgrees(e, BatchSize(s), DEPOSIT - REFUND_FEE, s.ownerKey);
    OrdinaryAgrees(e, BatchSize(s) + 1, external + Pool(s) - a.fee, a.actorPk);
    var f := A.ReadRefund(s, w, e.tx, a.fee, external);
    if f.Ok? {
      if IsLast(s) {
        LastBatchPlain(s, w, e.tx, a.fee, external, x.covenantId);
        TerminalAgrees(h, p, x, e, w, f.value);
      } else {
        var next := s.(cursor := s.cursor + BatchSize(s));
        AdvancedValid(s);
        ValidParts(next);
        PhaseOfValid(next);
        SuccessorAgrees(h, p, x, e, w, f.value, next);
      }
    }
  }
}
