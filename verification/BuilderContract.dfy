/** What the builder makes, the templates accept. */
module BuilderContract {
  import opened Results
  import opened Bytes
  import opened Layout
  import opened State
  import opened Directory
  import opened Scripts
  import opened Tx
  import opened Frames
  import opened Sil
  import opened Spends
  import opened Lineage
  import opened ContractReader
  import opened Agreement
  import opened BuilderReader
  import B = Builders
  import P = Protocol
  import A = Accepted

  /** The node's view of the built transaction's inputs: the state output, then the funding outputs as the wallet reported
      them. */
  predicate Funded(e: Env, r: Round, funds: seq<B.Funding>) {
    && |e.utxos| == 1 + |funds|
    && e.activeInput == 0
    && (forall k | 1 <= k < |e.utxos| :: e.utxos[k].value == funds[k - 1].value && e.utxos[k].covenantId != Some(r.id))
  }

  lemma FundedValues(e: Env, r: Round, x: P.Snapshot, funds: seq<B.Funding>)
    requires Matched(e) && Funded(e, r, funds) && e.utxos[0].value == x.value && e.utxos[0].covenantId == Some(r.id)
    ensures ValuesOf(e.utxos) == InputValues(x, funds)
    ensures CovInputs(e.utxos, r.id) == [0]
  {
    assert ValuesOf(e.utxos) == InputValues(x, funds);
    OnlyFirst(e.utxos, r.id);
  }

  lemma OnlyFirst(utxos: seq<Utxo>, id: Bytes)
    requires |utxos| > 0 && utxos[0].covenantId == Some(id)
    requires forall k | 1 <= k < |utxos| :: utxos[k].covenantId != Some(id)
    ensures CovInputs(utxos, id) == [0]
  {
    WhereFirst(seq(|utxos|, i requires 0 <= i < |utxos| => utxos[i].covenantId == Some(id)));
  }

  lemma BuiltAuthority(h: Hashes, p: Profile, x: P.Snapshot, op: P.Operation, fee: int, funds: seq<B.Funding>, budget: int,
                       payload: Bytes, tx: Transaction)
    requires B.BuildAction(h, p, x, op, fee, funds, budget, payload).Ok?
    requires SignedFrom(B.BuildAction(h, p, x, op, fee, funds, budget, payload).value.transaction, tx)
    ensures var t := B.BuildAction(h, p, x, op, fee, funds, budget, payload).value.transition;
            AuthOutputs(tx, 0) == if t.next.Some? then [0] else []
  {
    hide P.VerifySnapshot, B.BuildAction, P.TransitionOf, B.FundingInputs, B.Witness, ValidTransaction, Decodable, ValueOf,
      P2sh, ScriptOf, AuthOutputs, CovOutputs, TotalOut, DistinctInputs, ValidLedger;
    var s, signature := BuiltParts(h, p, x, op, fee, funds, budget, payload);
    var t := B.BuildAction(h, p, x, op, fee, funds, budget, payload).value.transition;
    FamilyOfBuilt(tx, x.covenantId, t.next.Some?);
  }

  predicate BuiltOn(h: Hashes, p: Profile, r: Round, u: Live, currentDaa: int, op: P.Operation, fee: int, funds: seq<B.Funding>,
                    budget: int, payload: Bytes, d: B.Draft)
  {
    && LedgerSized(u.ledger)
    && B.BuildAction(h, p, SnapshotOf(h, p, r, u, currentDaa), op, fee, funds, budget, payload) == Ok(d)
  }

  /** `e` submits what the builder made of `op`, signed; the node knows a draw's target under the accessor's commitment. */
  predicate Submits(r: Round, e: Env, op: P.Operation, funds: seq<B.Funding>, d: B.Draft) {
    && Matched(e) && Funded(e, r, funds)
    && SignedFrom(d.transaction, e.tx)
    && (op.accessor.Some? ==>
          e.seqCommit(op.accessor.value.blockHash) == Some(op.accessor.value.sequenceCommitment))
  }

  /** The node accepts the spend, and both its verdict and the reader's account are what the draft set out to do. */
  ghost predicate AcceptedAsDrafted(h: Hashes, p: Profile, r: Round, u: Live, e: Env, currentDaa: int, op: P.Operation,
                                    d: B.Draft, total: int) {
    && LedgerSized(u.ledger)
    && var i := Read(h, p, r, u, e, currentDaa);
    && i.Ok?
    && AsDrafted(d, op, i.value, total)
    && (exists v :: AcceptedSpend(h, p, r, u, e, v))
    && (forall v | AcceptedSpend(h, p, r, u, e, v) :: Tells(v, i.value))
  }

  /** On a round's state output, every transaction that the builder makes and the wallet signs is accepted by the template,
      with the outcome that the builder planned. */
  lemma BuilderAndContractAgree(h: Hashes, p: Profile, r: Round, u: Live, s: Ledger, e: Env, currentDaa: int, op: P.Operation,
                                fee: int, funds: seq<B.Funding>, budget: int, payload: Bytes, d: B.Draft)
    requires Spending(h, p, r, u, s, e, currentDaa) && r.id != ZERO
    requires BuiltOn(h, p, r, u, currentDaa, op, fee, funds, budget, payload, d)
    requires Submits(r, e, op, funds, d)
    ensures AcceptedAsDrafted(h, p, r, u, e, currentDaa, op, d, B.TotalFunding(funds))
  {
    hide B.BuildAction, Spending, A.InterpretAccepted, AcceptedSpend, Tells, InputValues, AuthOutputs, B.TotalFunding,
      ExpectedRoles;
    SpendingParts(h, p, r, u, s, e, currentDaa);
    var x := SnapshotOf(h, p, r, u, currentDaa);
    FundedValues(e, r, x, funds);
    BuilderAndReaderAgree(h, p, x, op, fee, funds, budget, payload, e.tx);
    BuiltAuthority(h, p, x, op, fee, funds, budget, payload, e.tx);
    ContractAndReaderAgree(h, p, r, u, s, e, currentDaa);
  }

  lemma SpendingParts(h: Hashes, p: Profile, r: Round, u: Live, s: Ledger, e: Env, currentDaa: int)
    requires Spending(h, p, r, u, s, e, currentDaa)
    ensures Matched(e) && LedgerSized(u.ledger) && e.utxos[0].value == u.value && e.utxos[0].covenantId == Some(r.id)
  {
  }
}
