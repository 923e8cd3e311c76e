/** Creating a round (scripts/core/src/builders.ts:43-51, scripts/core/src/registry.ts). */
module Genesis {
  import opened Results
  import opened Bytes
  import opened Layout
  import opened State
  import opened Directory
  import opened Scripts
  import opened Tx
  import opened Frames
  import opened LedgerEdits
  import opened Spends
  import opened Lineage
  import opened Builders
  import Sil
  import BuilderReader
  import ContractSteps
  import Open

  datatype Created = Created(transaction: Transaction, inputUtxos: seq<Funding>, authorizedInputIndices: seq<int>,
                             origin: Outpoint, covenantId: Digest, walletDebit: int, fee: int)

  const REGISTRATION_SOMPI := 20_000_000

  function RegistryChecked(spk: Spk): Result<Spk> {
    var _ :- Check(0 <= spk.version <= 65535, REGISTRY_VERSION);
    var _ :- Check(0 < |spk.script| <= 1_000_000, REGISTRY_SCRIPT);
    Ok(spk)
  }

  function Registration(registry: Option<Spk>): int {
    if registry.Some? then REGISTRATION_SOMPI else 0
  }

  /** The optional payment that registers the round. */
  function RegistryOutputs(registry: Option<Spk>): Result<seq<Output>> {
    match registry
    case None => Ok([])
    case Some(spk) =>
      var checked :- RegistryChecked(spk);
      Ok([Output(REGISTRATION_SOMPI, checked, None)])
  }

  function ChangeOutputs(rest: int, owner: Bytes): seq<Output> {
    if rest > 0 then [Output(rest, P2pk(owner), None)] else []
  }

  /** `KASWIN_GENESIS_V2`, the profile id, and the ledger. */
  function GenesisPayload(profileId: Digest, s: Ledger): Bytes
    requires Fits(s)
  {
    Ascii("KASWIN_GENESIS_V2") + profileId + LedgerBytes(s)
  }

  function AllIndices(n: nat): seq<int> {
    seq(n, i => i)
  }

  function BuildOpenGenesis(h: Hashes, p: Profile, profileId: Digest, owner: Bytes, config: Config, funds: seq<Funding>, fee: int,
                            registry: Option<Spk>): Result<Created>
  {
    hide ValidLedger, Decodable, LedgerBytes, ScriptOf, RootId, FundsChecked, AssertDraft, TotalFunding, RegistryChecked;
    var _ :- Check(|funds| >= 1, FUNDING_REQUIRED);
    var _ :- FundingInputs(funds, owner);
    var total, registration := TotalFunding(funds), Registration(registry);
    var _ :- Check(0 < fee <= MAX_PAY_FEE && total >= DEPOSIT + registration + fee, GENESIS_FUNDS);
    var s := NewOpen(owner, config);
    var _ :- ValidateLedger(s);
    ValidateIsValid(s);
    ValidIsDecodable(s);
    var script := ScriptOf(s, p);
    var id :- RootId(h, funds[0].outpoint, script);
    var registered :- RegistryOutputs(registry);
    var outputs := [Output(DEPOSIT, P2sh(h.blake2b(script)), Some(Binding(id, 0)))] + registered
                   + ChangeOutputs(total - DEPOSIT - registration - fee, owner);
    var tx := Transaction(1, FundingTxInputs(funds), outputs, 0, Zeros(20), 0, GenesisPayload(profileId, s), 0);
    var _ :- AssertDraft(tx, funds, AllIndices(|funds|), fee);
    Ok(Created(tx, funds, AllIndices(|funds|), funds[0].outpoint, id, DEPOSIT + registration + fee, fee))
  }

  /** The source fills the transaction in place: payload, inputs, then the outputs one by one. */
  method CreateRound(h: Hashes, p: Profile, profileId: Digest, owner: Bytes, config: Config, funds: seq<Funding>, fee: int,
                     registry: Option<Spk>) returns (r: Result<Created>)
    ensures r == BuildOpenGenesis(h, p, profileId, owner, config, funds, fee, registry)
  {
    hide ValidLedger, Decodable, LedgerBytes, ScriptOf, RootId, FundsChecked, FundingInputs, AssertDraft, TotalFunding,
      RegistryChecked, P2sh, P2pk, ValidateLedger, GenesisPayload;
    var _ :- Check(|funds| >= 1, FUNDING_REQUIRED);
    var _ :- CheckFunding(funds, owner);
    var total, registration := TotalFunding(funds), if registry.Some? then REGISTRATION_SOMPI else 0;
    var _ :- Check(0 < fee <= MAX_PAY_FEE && total >= DEPOSIT + registration + fee, GENESIS_FUNDS);
    var s := NewOpen(owner, config);
    var _ :- ValidateLedger(s);
    ValidateIsValid(s);
    ValidIsDecodable(s);
    var script, origin := ScriptOf(s, p), funds[0].outpoint;
    var id :- RootId(h, origin, script);
    var tx := Transaction(1, [], [], 0, Zeros(20), 0, [], 0);
    tx := tx.(payload := GenesisPayload(profileId, s));
    tx := tx.(inputs := FundingTxInputs(funds));
    tx := tx.(outputs := [Output(DEPOSIT, P2sh(h.blake2b(script)), Some(Binding(id, 0)))]);
    if registry.Some? {
      var checked :- RegistryChecked(registry.value);
      tx := tx.(outputs := tx.outputs + [Output(REGISTRATION_SOMPI, checked, None)]);
    }
    if total > DEPOSIT + registration + fee {
      tx := tx.(outputs := tx.outputs + [Output(total - DEPOSIT - registration - fee, P2pk(owner), None)]);
    }
    assert tx.outputs == [Output(DEPOSIT, P2sh(h.blake2b(script)), Some(Binding(id, 0)))] + RegistryOutputs(registry).value
                         + ChangeOutputs(total - DEPOSIT - registration - fee, owner);
    var _ :- AssertDraft(tx, funds, AllIndices(|funds|), fee);
    r := Ok(Created(tx, funds, AllIndices(|funds|), origin, id, DEPOSIT + registration + fee, fee));
  }

  /** The round that a created transaction starts, and its first state output. */
  function RoundOf(g: Created, owner: Bytes, config: Config): Round {
    Round(g.origin, g.covenantId, owner, config)
  }

  function FirstLive(owner: Bytes, config: Config, daa: int, txId: Bytes): Live
    requires Fits(NewOpen(owner, config))
  {
    Live(OpenModule, LedgerBytes(NewOpen(owner, config)), DEPOSIT, daa, Outpoint(txId, 0))
  }

  lemma CreatedParts(h: Hashes, p: Profile, profileId: Digest, owner: Bytes, config: Config, funds: seq<Funding>, fee: int,
                     registry: Option<Spk>) returns (script: Bytes)
    requires BuildOpenGenesis(h, p, profileId, owner, config, funds, fee, registry).Ok?
    ensures var g, s := BuildOpenGenesis(h, p, profileId, owner, config, funds, fee, registry).value, NewOpen(owner, config);
            && ValidLedger(s) && Decodable(s) && script == ScriptOf(s, p)
            && RootId(h, g.origin, script) == Ok(g.covenantId)
            && |g.origin.transactionId| == 32 && 0 <= g.origin.index <= 0xffff_ffff
            && |g.transaction.inputs| == |funds| > 0 && g.transaction.inputs[0].previousOutpoint == g.origin
            && g.transaction.outputs != []
            && g.transaction.outputs[0] == Output(DEPOSIT, P2sh(h.blake2b(script)), Some(Binding(g.covenantId, 0)))
            && (forall i | 0 < i < |g.transaction.outputs| :: g.transaction.outputs[i].covenant == None)
            && TotalFunding(funds) - TotalOut(g.transaction.outputs) == g.fee == fee
  {
    hide ValidLedger, Decodable, LedgerBytes, ScriptOf, RootId, FundsChecked, TotalFunding, TotalOut, RegistryChecked, P2sh, P2pk,
      ValidTransaction, DistinctInputs, BudgetsCover, GenesisPayload, ValidateLedger;
    var s := NewOpen(owner, config);
    ValidateIsValid(s);
    ValidIsDecodable(s);
    script := ScriptOf(s, p);
    OriginKeyed(funds, owner);
  }

  lemma OriginKeyed(funds: seq<Funding>, key: Bytes)
    requires funds != [] && FundsChecked(funds, key).Ok?
    ensures |funds[0].outpoint.transactionId| == 32 && 0 <= funds[0].outpoint.index <= 0xffff_ffff
  {
    if |funds| > 1 {
      OriginKeyed(funds[..|funds| - 1], key);
    }
  }

  /** A created round starts a lineage: its first output carries the zero-ticket ledger under the committed id, which the
      network derives from input 0 and that output alone; and it is a genesis of the lineage exactly when its first funding
      outpoint is one that OPEN can name. */
  lemma GenesisStartsRound(h: Hashes, p: Profile, profileId: Digest, owner: Bytes, config: Config, funds: seq<Funding>, fee: int,
                           registry: Option<Spk>, daa: int, txId: Bytes)
    requires BuildOpenGenesis(h, p, profileId, owner, config, funds, fee, registry).Ok? && |txId| == 32
    ensures Fits(NewOpen(owner, config))
    ensures var g := BuildOpenGenesis(h, p, profileId, owner, config, funds, fee, registry).value;
            var r, u := RoundOf(g, owner, config), FirstLive(owner, config, daa, txId);
            && LedgerSized(u.ledger)
            && g.transaction.inputs != [] && g.transaction.inputs[0].previousOutpoint == r.origin
            && g.transaction.outputs != []
            && g.transaction.outputs[0] == Output(u.value, P2sh(h.blake2b(RedeemOf(p, u))), Some(Binding(r.id, 0)))
            && Sil.AuthOutputs(g.transaction, 0) == [0] && Sil.CovOutputs(g.transaction, r.id) == [0]
            && TotalFunding(funds) - TotalOut(g.transaction.outputs) == fee
            && (GenesisLive(h, p, r, u) <==> GoodOrigin(r.origin))
  {
    hide BuildOpenGenesis, ValidLedger, LedgerBytes, RootId, RootPreimage, P2sh, LedgerScript, GenesisLive, TotalOut, TotalFunding;
    var script := CreatedParts(h, p, profileId, owner, config, funds, fee, registry);
    var g := BuildOpenGenesis(h, p, profileId, owner, config, funds, fee, registry).value;
    var s := NewOpen(owner, config);
    LedgerSlices(s);
    RootIdHashesRootPreimage(h, g.origin, script);
    BuilderReader.FamilyOfBuilt(g.transaction, g.covenantId, true);
    LiveWhenNamed(h, p, RoundOf(g, owner, config), daa, txId);
  }

  /** The zero-ticket output of a rooted id is a genesis exactly when its origin can be named. */
  lemma LiveWhenNamed(h: Hashes, p: Profile, r: Round, daa: int, txId: Bytes)
    requires |txId| == 32 && |r.origin.transactionId| == 32 && 0 <= r.origin.index <= 0xffff_ffff
    requires ValidLedger(GenesisOf(r)) && Decodable(GenesisOf(r))
    requires r.id == h.covenantId(RootPreimage(h, r.origin, ScriptOf(GenesisOf(r), p)))
    ensures GenesisLive(h, p, r, FirstLive(r.ownerKey, r.config, daa, txId)) <==> GoodOrigin(r.origin)
  {
    hide LedgerBytes, RootPreimage, LedgerScript, DecodeLedger, Sil.U32, Sil.U63, ValidLedger, Open.CheckLedger, Open.GenesisLedger;
    var s := GenesisOf(r);
    LedgerSlices(s);
    DecodeOfEncode(s);
    GenesisEdit(s);
    ContractSteps.OpenCheckPasses(s);
  }
}
