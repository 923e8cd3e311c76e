/** What the seed of a draw commits to (scripts/core/src/protocol.ts:17-33, contracts/sealed.sil:159-197). */
module DrawBinding {
  import opened Results
  import opened Bytes
  import opened Layout
  import opened State
  import opened Directory
  import opened Scripts
  import opened Tx
  import opened Frames
  import opened Draws
  import opened Hashing
  import opened Protocol
  import Sealed
  import Sil
  import Spends

  // ---------------------------------------------------------------- the preimages, byte by byte

  function SeedInput(h: Hashes, id: Bytes, anchor: Outpoint, ledger: Bytes, boundary: nat, proof: Bytes): Bytes
    requires |ledger| >= 80 && |proof| == 240 && anchor.index >= 0
  {
    DRAW_TAG + id + anchor.transactionId + Le(anchor.index, 4) + h.blake2b(Frozen(ledger)) + Le(boundary, 8) + proof[..32]
    + TargetSeq(h, proof)
  }

  /** Where everything stands that the seed is the digest of. */
  lemma SeedLayout(h: Hashes, id: Bytes, anchor: Outpoint, ledger: Bytes, boundary: nat, proof: Bytes)
    requires |ledger| >= 80 && |proof| == 240 && 0 <= anchor.index < 0x1_0000_0000 && boundary < 0x1_0000_0000_0000_0000
    requires |id| == 32 && |anchor.transactionId| == 32
    ensures var b := SeedInput(h, id, anchor, ledger, boundary, proof);
            && Seed(h, id, anchor, ledger, boundary, proof) == h.blake2b(b)
            && |b| == 186
            && b[..14] == Ascii("KASWIN_V2_DRAW")
            && b[14..46] == id
            && b[46..78] == anchor.transactionId
            && FromLe(b[78..82]) == anchor.index
            && b[82..114] == h.blake2b(ledger[8..44] + ledger[80..])
            && FromLe(b[114..122]) == boundary
            && b[122..154] == proof[..32]
            && b[154..186] == TargetSeq(h, proof)
  {
    hide TargetSeq, Le, FromLe;
    Pow256Values();
    FromLeOfLe(anchor.index, 4);
    FromLeOfLe(boundary, 8);
    assert Frozen(ledger) == ledger[8..44] + ledger[80..];
    EightParts(DRAW_TAG, id, anchor.transactionId, Le(anchor.index, 4), h.blake2b(Frozen(ledger)), Le(boundary, 8), proof[..32],
               TargetSeq(h, proof));
  }

  lemma EightParts(a: Bytes, b: Bytes, c: Bytes, d: Bytes, e: Bytes, f: Bytes, g: Bytes, i: Bytes)
    requires |a| == 14 && |b| == |c| == |e| == |g| == |i| == 32 && |d| == 4 && |f| == 8
    ensures var s := a + b + c + d + e + f + g + i;
            && |s| == 186 && s[..14] == a && s[14..46] == b && s[46..78] == c && s[78..82] == d && s[82..114] == e
            && s[114..122] == f && s[122..154] == g && s[154..186] == i
  {
  }

  function SampleInput(seed: Digest): Bytes {
    SAMPLE_TAG + seed + Zeros(8)
  }

  /** The sample is the number of the first seven bytes of a digest that takes in the whole seed. */
  lemma SampleLayout(h: Hashes, seed: Digest)
    ensures var b := SampleInput(seed);
            && SampleValue(h, seed) == FromLe(h.blake2b(b)[..7])
            && |b| == 56 && b[..16] == Ascii("KASWIN_V2_SAMPLE") && b[16..48] == seed
            && b[48..] == [0, 0, 0, 0, 0, 0, 0, 0]
  {
  }

  lemma SamplesApart(a: Digest, b: Digest)
    requires a != b
    ensures SampleInput(a) != SampleInput(b)
  {
    assert SampleInput(a)[16..48] == a && SampleInput(b)[16..48] == b;
  }

  // ---------------------------------------------------------------- one seed, one draw

  /** The two inputs do not collide. */
  predicate Apart(h: Bytes -> Digest, a: Bytes, b: Bytes) {
    h(a) == h(b) ==> a == b
  }

  /** What a seed is the digest of. */
  predicate Formed(id: Bytes, anchor: Outpoint, ledger: Bytes, boundary: nat, proof: Bytes) {
    && |ledger| >= 80 && |proof| == 240 && 0 <= anchor.index < 0x1_0000_0000 && boundary < 0x1_0000_0000_0000_0000
    && |id| == 32 && |anchor.transactionId| == 32
  }

  lemma SeedBinds(h: Hashes, id: Bytes, anchor: Outpoint, ledger: Bytes, boundary: nat, proof: Bytes,
                  id': Bytes, anchor': Outpoint, ledger': Bytes, boundary': nat, proof': Bytes)
    requires Formed(id, anchor, ledger, boundary, proof) && Formed(id', anchor', ledger', boundary', proof')
    requires Seed(h, id, anchor, ledger, boundary, proof) == Seed(h, id', anchor', ledger', boundary', proof')
    requires Apart(h.blake2b, SeedInput(h, id, anchor, ledger, boundary, proof),
                   SeedInput(h, id', anchor', ledger', boundary', proof'))
    requires Apart(h.blake2b, ledger[8..44] + ledger[80..], ledger'[8..44] + ledger'[80..])
    ensures id == id' && anchor == anchor' && boundary == boundary' && proof[..32] == proof'[..32]
    ensures TargetSeq(h, proof) == TargetSeq(h, proof') && ledger[8..44] == ledger'[8..44] && ledger[80..] == ledger'[80..]
  {
    hide Seed, SeedInput, TargetSeq;
    SeedLayout(h, id, anchor, ledger, boundary, proof);
    SeedLayout(h, id', anchor', ledger', boundary', proof');
    Halves(ledger[8..44], ledger[80..], ledger'[8..44], ledger'[80..]);
  }

  /** Two openings of one target commitment are one opening, but for the target hash in front. */
  lemma OpeningBinds(h: Hashes, a: Bytes, b: Bytes)
    requires |a| == |b| == 240 && TargetSeq(h, a) == TargetSeq(h, b)
    requires CollisionFree(h, OpeningQueries(h, a) + OpeningQueries(h, b))
    ensures a[32..] == b[32..]
  {
    hide CollisionFree, Among, Hash;
    var qs := OpeningQueries(h, a) + OpeningQueries(h, b);
    TargetIs(h, a);
    TargetIs(h, b);
    BothAmong(h, a, b, qs);
    HalfBinds(h, a, b, 32, HalfSeq(h, a, 152, a[120..152]), HalfSeq(h, b, 152, b[120..152]), qs);
    HalfBinds(h, a, b, 152, a[120..152], b[120..152], qs);
    SameHalves(a, b);
  }

  lemma SameHalves(a: Bytes, b: Bytes)
    requires |a| == |b| == 240 && a[32..120] == b[32..120] && a[120..152] == b[120..152] && a[152..240] == b[152..240]
    ensures a[32..] == b[32..]
  {
    assert a[32..] == a[32..120] + a[120..152] + a[152..240];
    assert b[32..] == b[32..120] + b[120..152] + b[152..240];
  }

  function ContextOf(a: Bytes, base: nat): Query
    requires base + 88 <= |a|
  {
    Query(MERGESET_CONTEXT, a[base + 64..base + 88])
  }

  function PayloadOf(h: Hashes, a: Bytes, base: nat): Query
    requires base + 88 <= |a|
  {
    Query(MERKLE_BRANCH, Hash(h, ContextOf(a, base)) + a[base + 32..base + 64])
  }

  function RootOf(h: Hashes, a: Bytes, base: nat): Query
    requires base + 88 <= |a|
  {
    Query(MERKLE_BRANCH, a[base..base + 32] + Hash(h, PayloadOf(h, a, base)))
  }

  function TopOf(h: Hashes, a: Bytes, base: nat, parent: Bytes): Query
    requires base + 88 <= |a|
  {
    Query(MERKLE_BRANCH, parent + Hash(h, RootOf(h, a, base)))
  }

  /** The commitment of half an opening: activity root, payload root and context, under the parent's commitment. */
  function HalfSeq(h: Hashes, a: Bytes, base: nat, parent: Bytes): Digest
    requires base + 88 <= |a|
  {
    Hash(h, TopOf(h, a, base, parent))
  }

  function HalfQueries(h: Hashes, a: Bytes, base: nat, parent: Bytes): seq<Query>
    requires base + 88 <= |a|
  {
    [ContextOf(a, base), PayloadOf(h, a, base), RootOf(h, a, base), TopOf(h, a, base, parent)]
  }

  function OpeningQueries(h: Hashes, a: Bytes): seq<Query>
    requires |a| == 240
  {
    HalfQueries(h, a, 32, HalfSeq(h, a, 152, a[120..152])) + HalfQueries(h, a, 152, a[120..152])
  }

  lemma TargetIs(h: Hashes, a: Bytes)
    requires |a| == 240
    ensures TargetSeq(h, a) == HalfSeq(h, a, 32, HalfSeq(h, a, 152, a[120..152]))
  {
  }

  lemma HalfAmong(h: Hashes, a: Bytes, base: nat, parent: Bytes, qs: seq<Query>)
    requires base + 88 <= |a| && forall i | 0 <= i < 4 :: Among(HalfQueries(h, a, base, parent)[i], qs)
    ensures Among(ContextOf(a, base), qs) && Among(PayloadOf(h, a, base), qs) && Among(RootOf(h, a, base), qs)
    ensures Among(TopOf(h, a, base, parent), qs)
  {
    hide Among, ContextOf, PayloadOf, RootOf, TopOf;
    var q := HalfQueries(h, a, base, parent);
    assert q[0] == ContextOf(a, base) && q[1] == PayloadOf(h, a, base);
    assert q[2] == RootOf(h, a, base) && q[3] == TopOf(h, a, base, parent);
  }

  lemma BothAmong(h: Hashes, a: Bytes, b: Bytes, qs: seq<Query>)
    requires |a| == |b| == 240 && qs == OpeningQueries(h, a) + OpeningQueries(h, b)
    ensures forall i | 0 <= i < 4 ::
              && Among(HalfQueries(h, a, 32, HalfSeq(h, a, 152, a[120..152]))[i], qs)
              && Among(HalfQueries(h, a, 152, a[120..152])[i], qs)
              && Among(HalfQueries(h, b, 32, HalfSeq(h, b, 152, b[120..152]))[i], qs)
              && Among(HalfQueries(h, b, 152, b[120..152])[i], qs)
  {
    hide ContextOf, PayloadOf, RootOf, TopOf, HalfSeq;
    forall i | 0 <= i < 4
      ensures && Among(HalfQueries(h, a, 32, HalfSeq(h, a, 152, a[120..152]))[i], qs)
              && Among(HalfQueries(h, a, 152, a[120..152])[i], qs)
              && Among(HalfQueries(h, b, 32, HalfSeq(h, b, 152, b[120..152]))[i], qs)
              && Among(HalfQueries(h, b, 152, b[120..152])[i], qs)
    {
      assert qs[i] == HalfQueries(h, a, 32, HalfSeq(h, a, 152, a[120..152]))[i];
      assert qs[4 + i] == HalfQueries(h, a, 152, a[120..152])[i];
      assert qs[8 + i] == HalfQueries(h, b, 32, HalfSeq(h, b, 152, b[120..152]))[i];
      assert qs[12 + i] == HalfQueries(h, b, 152, b[120..152])[i];
    }
  }

  lemma HalfBinds(h: Hashes, a: Bytes, b: Bytes, base: nat, pa: Bytes, pb: Bytes, qs: seq<Query>)
    requires base + 88 <= |a| && base + 88 <= |b| && |pa| == |pb| && HalfSeq(h, a, base, pa) == HalfSeq(h, b, base, pb)
    requires CollisionFree(h, qs)
    requires forall i | 0 <= i < 4 :: Among(HalfQueries(h, a, base, pa)[i], qs) && Among(HalfQueries(h, b, base, pb)[i], qs)
    ensures pa == pb && a[base..base + 88] == b[base..base + 88]
  {
    hide CollisionFree, Among, Hash, HalfQueries;
    HalfAmong(h, a, base, pa, qs);
    HalfAmong(h, b, base, pb, qs);
    NoCollision(h, qs, TopOf(h, a, base, pa), TopOf(h, b, base, pb));
    Halves(pa, Hash(h, RootOf(h, a, base)), pb, Hash(h, RootOf(h, b, base)));
    NoCollision(h, qs, RootOf(h, a, base), RootOf(h, b, base));
    Halves(a[base..base + 32], Hash(h, PayloadOf(h, a, base)), b[base..base + 32], Hash(h, PayloadOf(h, b, base)));
    NoCollision(h, qs, PayloadOf(h, a, base), PayloadOf(h, b, base));
    Halves(Hash(h, ContextOf(a, base)), a[base + 32..base + 64], Hash(h, ContextOf(b, base)), b[base + 32..base + 64]);
    NoCollision(h, qs, ContextOf(a, base), ContextOf(b, base));
    ThreeSlices(a, base);
    ThreeSlices(b, base);
  }

  lemma ThreeSlices(a: Bytes, base: nat)
    requires base + 88 <= |a|
    ensures a[base..base + 88] == a[base..base + 32] + a[base + 32..base + 64] + a[base + 64..base + 88]
  {
  }

  /** What two draws have in common when they have one seed. */
  predicate SameDraw(x: Snapshot, s: Ledger, a: Draw, y: Snapshot, t: Ledger, b: Draw) {
    && x.covenantId == y.covenantId && x.tip == y.tip && x.utxoDaa == y.utxoDaa
    && a == b
    && s.config == t.config && s.sold == t.sold && s.purchaseCount == t.purchaseCount && s.directory == t.directory
  }

  /** The client's seed binds the draw: two authenticated draws of one seed are of one round, anchor, boundary, target block and
      commitment, and of the same configuration, totals and purchases. */
  lemma ClientSeedBinds(h: Hashes, p: Profile, x: Snapshot, s: Ledger, proof: Bytes, acc: Accessor,
                        y: Snapshot, t: Ledger, proof': Bytes, acc': Accessor)
    requires Verified(h, p, x, s) && Verified(h, p, y, t) && x.tip.index >= 0 && y.tip.index >= 0
    requires AuthenticateDraw(h, x, s, proof, acc).Ok? && AuthenticateDraw(h, y, t, proof', acc').Ok?
    requires AuthenticateDraw(h, x, s, proof, acc).value.seed == AuthenticateDraw(h, y, t, proof', acc').value.seed
    requires |proof| == |proof'| == 240 && 0 <= x.utxoDaa && 0 <= y.utxoDaa && |x.ledger| >= 80 && |y.ledger| >= 80
    requires Apart(h.blake2b, SeedInput(h, x.covenantId, x.tip, x.ledger, x.utxoDaa + 100, proof),
                   SeedInput(h, y.covenantId, y.tip, y.ledger, y.utxoDaa + 100, proof'))
    requires Apart(h.blake2b, x.ledger[8..44] + x.ledger[80..], y.ledger[8..44] + y.ledger[80..])
    ensures SameDraw(x, s, AuthenticateDraw(h, x, s, proof, acc).value, y, t, AuthenticateDraw(h, y, t, proof', acc').value)
  {
    hide LedgerBytes, ValidLedger, RootPreimage, ValueOf, ScriptOf, RootScript, P2sh, TargetSeq, Seed, SeedInput, OpeningNumber,
      Decodable;
    SeedBinds(h, x.covenantId, x.tip, x.ledger, x.utxoDaa + 100, proof, y.covenantId, y.tip, y.ledger, y.utxoDaa + 100, proof');
    FrozenFields(s, t);
  }

  /** The frozen part of a ledger's bytes is its configuration, its totals and its directory. */
  lemma FrozenFields(s: Ledger, t: Ledger)
    requires Decodable(s) && Decodable(t) && LedgerBytes(s)[8..44] == LedgerBytes(t)[8..44]
    requires LedgerBytes(s)[80..] == LedgerBytes(t)[80..]
    ensures s.config == t.config && s.sold == t.sold && s.purchaseCount == t.purchaseCount && s.directory == t.directory
  {
    hide LedgerBytes, Le;
    LedgerSlices(s);
    LedgerSlices(t);
    FieldOf(LedgerBytes(s), LedgerBytes(t), 8, 16);
    FieldOf(LedgerBytes(s), LedgerBytes(t), 16, 20);
    FieldOf(LedgerBytes(s), LedgerBytes(t), 20, 24);
    FieldOf(LedgerBytes(s), LedgerBytes(t), 24, 28);
    FieldOf(LedgerBytes(s), LedgerBytes(t), 28, 36);
    FieldOf(LedgerBytes(s), LedgerBytes(t), 36, 40);
    FieldOf(LedgerBytes(s), LedgerBytes(t), 40, 44);
    Pow256Values();
    LeInjective(s.config.ticketPrice, t.config.ticketPrice, 8);
    LeInjective(s.config.ticketCap, t.config.ticketCap, 4);
    LeInjective(s.config.purchaseCap, t.config.purchaseCap, 4);
    LeInjective(s.config.minTickets, t.config.minTickets, 4);
    LeInjective(s.config.closeEligibleDaa, t.config.closeEligibleDaa, 8);
    LeInjective(s.sold, t.sold, 4);
    LeInjective(s.purchaseCount, t.purchaseCount, 4);
  }

  lemma FieldOf(a: Bytes, b: Bytes, lo: nat, hi: nat)
    requires |a| >= 44 && |b| >= 44 && 8 <= lo <= hi <= 44 && a[8..44] == b[8..44]
    ensures a[lo..hi] == b[lo..hi]
  {
    forall i | lo <= i < hi
      ensures a[i] == b[i]
    {
      assert a[8..44][i - 8] == b[8..44][i - 8];
    }
  }

  /** The template's seed binds the same: on whatever bytes the template runs. */
  lemma TemplateSeedBinds(h: Hashes, e: Sil.Env, ledger: Bytes, proof: Bytes, e': Sil.Env, ledger': Bytes, proof': Bytes)
    requires Sil.Matched(e) && Sil.Matched(e') && |ledger| >= 80 && |ledger'| >= 80 && |proof| == |proof'| == 240
    requires e.utxos[0].covenantId.Some? && e'.utxos[0].covenantId.Some?
    requires Sealed.DrawSeed(h, e, ledger, proof).Val?
    requires Sealed.DrawSeed(h, e, ledger, proof) == Sealed.DrawSeed(h, e', ledger', proof')
    requires var at, at' := e.tx.inputs[0].previousOutpoint, e'.tx.inputs[0].previousOutpoint;
             && 0 <= at.index && 0 <= at'.index && 0 <= e.utxos[0].daa && 0 <= e'.utxos[0].daa
             && Formed(e.utxos[0].covenantId.value, at, ledger, e.utxos[0].daa + 100, proof)
             && Formed(e'.utxos[0].covenantId.value, at', ledger', e'.utxos[0].daa + 100, proof')
             && Apart(h.blake2b, SeedInput(h, e.utxos[0].covenantId.value, at, ledger, e.utxos[0].daa + 100, proof),
                      SeedInput(h, e'.utxos[0].covenantId.value, at', ledger', e'.utxos[0].daa + 100, proof'))
             && Apart(h.blake2b, ledger[8..44] + ledger[80..], ledger'[8..44] + ledger'[80..])
    ensures e.utxos[0].covenantId == e'.utxos[0].covenantId && e.utxos[0].daa == e'.utxos[0].daa
    ensures e.tx.inputs[0].previousOutpoint == e'.tx.inputs[0].previousOutpoint
    ensures proof[..32] == proof'[..32] && e.seqCommit(proof[..32]) == e'.seqCommit(proof'[..32])
    ensures ledger[8..44] == ledger'[8..44] && ledger[80..] == ledger'[80..]
  {
    hide Sealed.DrawSeed, Seed, SeedInput, TargetSeq;
    TemplateSeed(h, e, ledger, proof);
    TemplateSeed(h, e', ledger', proof');
    SeedBinds(h, e.utxos[0].covenantId.value, e.tx.inputs[0].previousOutpoint, ledger, e.utxos[0].daa + 100, proof,
              e'.utxos[0].covenantId.value, e'.tx.inputs[0].previousOutpoint, ledger', e'.utxos[0].daa + 100, proof');
  }

  lemma TemplateSeed(h: Hashes, e: Sil.Env, ledger: Bytes, proof: Bytes)
    requires Sil.Matched(e) && |ledger| >= 80 && |proof| == 240 && e.utxos[0].covenantId.Some?
    requires Sealed.DrawSeed(h, e, ledger, proof).Val? && e.tx.inputs[0].previousOutpoint.index >= 0 && 0 <= e.utxos[0].daa
    ensures Sealed.DrawSeed(h, e, ledger, proof).value
         == Seed(h, e.utxos[0].covenantId.value, e.tx.inputs[0].previousOutpoint, ledger, e.utxos[0].daa + 100, proof)
    ensures e.seqCommit(proof[..32]) == Some(TargetSeq(h, proof))
  {
    hide TargetSeq, Sealed.OpenSeq;
    Spends.TargetCommitment(h, proof);
  }
}
