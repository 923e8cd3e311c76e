/** Sparse-Merkle lane proofs and their header commitment (scripts/core/src/pass-a.ts:81-114). */
module Lanes {
  import opened Results
  import opened Bytes
  import opened Scripts
  import opened Hashing

  // ---------------------------------------------------------------- bits

  /** Bit `k` of a byte, least significant first. */
  predicate Bit(b: Byte, k: nat) {
    b / Pow2(k) % 2 == 1
  }

  /** Whether the proof omits the sibling at depth `d`, which is then an empty subtree. */
  predicate Missing(bitmap: Bytes, d: nat)
    requires |bitmap| == 32 && d < 256
  {
    Bit(bitmap[d / 8], d % 8)
  }

  /** Whether the path to `key` turns right at depth `d`. */
  predicate TurnsRight(key: Bytes, d: nat)
    requires |key| == 32 && d < 256
  {
    Bit(key[d / 8], 7 - d % 8)
  }

  /** Siblings that the proof carries above depth `n`. */
  function Carried(bitmap: Bytes, n: nat): nat
    requires |bitmap| == 32 && n <= 256
  {
    if n == 0 then 0 else Carried(bitmap, n - 1) + if Missing(bitmap, n - 1) then 0 else 1
  }

  // ---------------------------------------------------------------- proofs

  datatype Lane = Lane(tip: Bytes, blueScore: int)

  /** A parsed proof. */
  datatype SmtProof = SmtProof(bitmap: Bytes, depth: nat, foreign: Option<(Bytes, Bytes)>, siblings: seq<Bytes>)

  predicate WellFormed(p: SmtProof) {
    && |p.bitmap| == 32 && p.depth <= 256
    && |p.siblings| == Carried(p.bitmap, p.depth)
    && (forall i | 0 <= i < |p.siblings| :: |p.siblings[i]| == 32)
    && (p.foreign.Some? ==> |p.foreign.value.0| == 32 && |p.foreign.value.1| == 32)
  }

  function SplitSiblings(raw: Bytes, at: nat, n: nat): (ss: seq<Bytes>)
    requires at + 32 * n <= |raw|
    ensures |ss| == n && forall i | 0 <= i < n :: |ss[i]| == 32
  {
    seq(n, i requires 0 <= i < n => raw[at + 32 * i..at + 32 * i + 32])
  }

  function ParseProof(raw: Bytes, inclusion: bool): (r: Result<SmtProof>)
    ensures r.Ok? ==> WellFormed(r.value) && (inclusion ==> r.value.foreign == None)
  {
    var _ :- Check(33 <= |raw| <= 16384, SMT_PROOF_BYTES);
    var bitmap, tag := raw[..32], raw[32];
    var _ :- if tag == 1 || tag == 2 then Check(|raw| > 33, SMT_TERMINAL) else Check(tag == 0, SMT_TERMINAL_TAG);
    var depth: nat, at: nat := if tag == 0 then 256 else raw[33] as nat, if tag == 0 then 33 else 34;
    var _ :- Check(if inclusion then tag != 2 else tag != 1, SMT_TERMINAL_LANE_MISMATCH);
    var _ :- Check(tag == 2 ==> |raw| >= at + 64, SMT_FOREIGN_LEAF);
    var foreign := if tag == 2 then Some((raw[at..at + 32], raw[at + 32..at + 64])) else None;
    var from := if tag == 2 then at + 64 else at;
    var expected := Carried(bitmap, depth);
    var _ :- Check(|raw| - from == expected * 32, SMT_SIBLING_COUNT);
    Ok(SmtProof(bitmap, depth, foreign, SplitSiblings(raw, from, expected)))
  }

  function Empty(h: Hashes, i: nat): Digest {
    if i == 0 then ZERO else Hash(h, Query(ACTIVE_NODE, Empty(h, i - 1) + Empty(h, i - 1)))
  }

  /** The sibling at depth `d` of the path. */
  function SiblingAt(h: Hashes, p: SmtProof, d: nat): Bytes
    requires WellFormed(p) && d < p.depth
  {
    CarriedBelow(p.bitmap, d, p.depth);
    if Missing(p.bitmap, d) then Empty(h, 255 - d) else p.siblings[Carried(p.bitmap, d)]
  }

  lemma {:induction false} CarriedBelow(bitmap: Bytes, d: nat, n: nat)
    requires |bitmap| == 32 && d < n <= 256
    ensures Carried(bitmap, d) + (if Missing(bitmap, d) then 0 else 1) <= Carried(bitmap, n)
  {
    if d < n - 1 {
      CarriedBelow(bitmap, d, n - 1);
    }
  }

  function NodeQuery(h: Hashes, p: SmtProof, key: Bytes, d: nat, below: Digest): Query
    requires WellFormed(p) && d < p.depth && |key| == 32
  {
    var sibling := SiblingAt(h, p, d);
    Query(ACTIVE_NODE, if TurnsRight(key, d) then sibling + below else below + sibling)
  }

  /** The digest at depth `d` of the path, `seed` being the one at its end. */
  function AtDepth(h: Hashes, p: SmtProof, key: Bytes, seed: Digest, d: nat): Digest
    requires WellFormed(p) && d <= p.depth && |key| == 32
    decreases p.depth - d
  {
    if d == p.depth then seed else Hash(h, NodeQuery(h, p, key, d, AtDepth(h, p, key, seed, d + 1)))
  }

  function LeafQuery(lane: Lane): Query
    requires lane.blueScore >= 0
  {
    Query(ACTIVE_LEAF, lane.tip + Le(lane.blueScore, 8))
  }

  function SeedOf(h: Hashes, p: SmtProof, key: Bytes, lane: Option<Lane>): Digest
    requires lane.Some? ==> lane.value.blueScore >= 0
  {
    match lane
    case Some(l) => Hash(h, Query(COLLAPSED_NODE, key + Hash(h, LeafQuery(l))))
    case None =>
      if p.foreign.Some? && p.foreign.value.0 != key
      then Hash(h, Query(COLLAPSED_NODE, p.foreign.value.0 + p.foreign.value.1))
      else ZERO
  }

  function LaneChecked(lane: Option<Lane>): (r: Result<()>)
    ensures r.Ok? <==> (lane.Some? ==> |lane.value.tip| == 32 && 0 <= lane.value.blueScore < 0x8000_0000_0000_0000)
  {
    match lane
    case None => Ok(())
    case Some(l) =>
      var _ :- Check(|l.tip| == 32, BYTE_LENGTH);
      Check(0 <= l.blueScore < 0x8000_0000_0000_0000, SMT_LANE_SCORE)
  }

  function LaneRoot(h: Hashes, raw: Bytes, key: Bytes, lane: Option<Lane>): Result<Digest> {
    var p :- ParseProof(raw, lane.Some?);
    var _ :- Check(|key| == 32, BYTE_LENGTH);
    var _ :- LaneChecked(lane);
    Ok(AtDepth(h, p, key, SeedOf(h, p, key, lane), 0))
  }

  /** The empty subtree of every height. */
  method EmptyNodes(h: Hashes) returns (empty: seq<Digest>)
    ensures |empty| == 257 && forall k | 0 <= k < 257 :: empty[k] == Empty(h, k)
  {
    empty := [ZERO];
    for i := 1 to 257
      invariant |empty| == i
      invariant forall k | 0 <= k < i :: empty[k] == Empty(h, k)
    {
      var half: Bytes := empty[i - 1];
      empty := empty + [Hash(h, Query(ACTIVE_NODE, half + half))];
    }
  }

  /** The source's climb, taking siblings off the end of the list; the cursor always reaches 0, so SMT_SIBLING_CURSOR never
      fires. */
  method ClimbLane(h: Hashes, raw: Bytes, key: Bytes, lane: Option<Lane>) returns (r: Result<Digest>)
    ensures r == LaneRoot(h, raw, key, lane)
  {
    hide ParseProof, SeedOf, Empty, Carried, AtDepth, Missing, TurnsRight;
    var p :- ParseProof(raw, lane.Some?);
    var _ :- Check(|key| == 32, BYTE_LENGTH);
    var _ :- LaneChecked(lane);
    ghost var seed0 := SeedOf(h, p, key, lane);
    var seed := SeedOf(h, p, key, lane);
    var empty := EmptyNodes(h);
    var cursor := |p.siblings|;
    AtEnd(h, p, key, seed0);
    for d := p.depth downto 0
      invariant cursor == Carried(p.bitmap, d)
      invariant seed == AtDepth(h, p, key, seed0, d)
    {
      CarriedBelow(p.bitmap, d, p.depth);
      CarriedStep(p.bitmap, d);
      Level(h, p, key, seed0, d);
      var sibling := if Missing(p.bitmap, d) then empty[255 - d] else p.siblings[cursor - 1];
      cursor := if Missing(p.bitmap, d) then cursor else cursor - 1;
      seed := Hash(h, Query(ACTIVE_NODE, if TurnsRight(key, d) then sibling + seed else seed + sibling));
    }
    NoneCarried(p.bitmap);
    if cursor != 0 {
      return Err(SMT_SIBLING_CURSOR);
    }
    r := Ok(seed);
  }

  lemma CarriedStep(bitmap: Bytes, d: nat)
    requires |bitmap| == 32 && d < 256
    ensures Carried(bitmap, d + 1) == Carried(bitmap, d) + if Missing(bitmap, d) then 0 else 1
  {
    hide Missing;
  }

  lemma NoneCarried(bitmap: Bytes)
    requires |bitmap| == 32
    ensures Carried(bitmap, 0) == 0
  {
  }

  /** One level up the path. */
  lemma Level(h: Hashes, p: SmtProof, key: Bytes, seed: Digest, d: nat)
    requires WellFormed(p) && d < p.depth && |key| == 32
    ensures AtDepth(h, p, key, seed, d) == Hash(h, NodeQuery(h, p, key, d, AtDepth(h, p, key, seed, d + 1)))
  {
    hide Carried, NodeQuery;
  }

  // ---------------------------------------------------------------- binding

  /** The query at depth `d` of the path. */
  function QueryAt(h: Hashes, p: SmtProof, key: Bytes, seed: Digest, d: nat): Query
    requires WellFormed(p) && d < p.depth && |key| == 32
  {
    NodeQuery(h, p, key, d, AtDepth(h, p, key, seed, d + 1))
  }

  /** The queries of a climb from depth `d` down to the end. */
  function PathQueries(h: Hashes, p: SmtProof, key: Bytes, seed: Digest, d: nat): seq<Query>
    requires WellFormed(p) && d <= p.depth && |key| == 32
    decreases p.depth - d
  {
    if d == p.depth then []
    else [QueryAt(h, p, key, seed, d)] + PathQueries(h, p, key, seed, d + 1)
  }

  function SeedQueries(h: Hashes, p: SmtProof, key: Bytes, lane: Option<Lane>): seq<Query>
    requires lane.Some? ==> lane.value.blueScore >= 0
  {
    match lane
    case Some(l) => [LeafQuery(l), Query(COLLAPSED_NODE, key + Hash(h, LeafQuery(l)))]
    case None =>
      if p.foreign.Some? && p.foreign.value.0 != key
      then [Query(COLLAPSED_NODE, p.foreign.value.0 + p.foreign.value.1)] else []
  }

  function Queries(h: Hashes, raw: Bytes, key: Bytes, lane: Option<Lane>): seq<Query>
    requires LaneRoot(h, raw, key, lane).Ok?
  {
    var p := ParseProof(raw, lane.Some?).value;
    PathQueries(h, p, key, SeedOf(h, p, key, lane), 0) + SeedQueries(h, p, key, lane)
  }

  lemma {:induction false} PathAmong(h: Hashes, p: SmtProof, key: Bytes, seed: Digest, from: nat, d: nat)
    requires WellFormed(p) && from <= d < p.depth && |key| == 32
    ensures Among(QueryAt(h, p, key, seed, d), PathQueries(h, p, key, seed, from))
    decreases d - from
  {
    hide QueryAt;
    var head := QueryAt(h, p, key, seed, from);
    var rest := PathQueries(h, p, key, seed, from + 1);
    if from < d {
      PathAmong(h, p, key, seed, from + 1, d);
      AmongParts(QueryAt(h, p, key, seed, d), [head], rest);
    } else {
      assert ([head] + rest)[0] == head;
    }
  }

  /** Two paths to one key with one root agree at every depth that both have. */
  lemma {:induction false} PathsAgree(h: Hashes, p: SmtProof, q: SmtProof, key: Bytes, sp: Digest, sq: Digest, qs: seq<Query>, d: nat)
    requires WellFormed(p) && WellFormed(q) && |key| == 32 && d <= p.depth && d <= q.depth
    requires AtDepth(h, p, key, sp, 0) == AtDepth(h, q, key, sq, 0)
    requires CollisionFree(h, qs)
    requires forall k | 0 <= k < p.depth :: Among(QueryAt(h, p, key, sp, k), qs)
    requires forall k | 0 <= k < q.depth :: Among(QueryAt(h, q, key, sq, k), qs)
    ensures AtDepth(h, p, key, sp, d) == AtDepth(h, q, key, sq, d)
  {
    hide AtDepth, QueryAt, CollisionFree, Among, WellFormed;
    if d > 0 {
      PathsAgree(h, p, q, key, sp, sq, qs, d - 1);
      AboveIs(h, p, key, sp, d - 1);
      AboveIs(h, q, key, sq, d - 1);
      NoCollision(h, qs, QueryAt(h, p, key, sp, d - 1), QueryAt(h, q, key, sq, d - 1));
      SameQuery(h, p, q, key, sp, sq, d - 1);
    }
  }

  lemma AboveIs(h: Hashes, p: SmtProof, key: Bytes, seed: Digest, d: nat)
    requires WellFormed(p) && |key| == 32 && d < p.depth
    ensures AtDepth(h, p, key, seed, d) == Hash(h, QueryAt(h, p, key, seed, d))
  {
  }

  lemma SameQuery(h: Hashes, p: SmtProof, q: SmtProof, key: Bytes, sp: Digest, sq: Digest, d: nat)
    requires WellFormed(p) && WellFormed(q) && |key| == 32 && d < p.depth && d < q.depth
    requires QueryAt(h, p, key, sp, d) == QueryAt(h, q, key, sq, d)
    ensures AtDepth(h, p, key, sp, d + 1) == AtDepth(h, q, key, sq, d + 1)
  {
    hide AtDepth, SiblingAt, TurnsRight;
    SiblingSize(h, p, d);
    SiblingSize(h, q, d);
    SameSide(SiblingAt(h, p, d), AtDepth(h, p, key, sp, d + 1), SiblingAt(h, q, d), AtDepth(h, q, key, sq, d + 1),
             TurnsRight(key, d));
  }

  lemma SiblingSize(h: Hashes, p: SmtProof, d: nat)
    requires WellFormed(p) && d < p.depth
    ensures |SiblingAt(h, p, d)| == 32
  {
    hide Empty;
    CarriedBelow(p.bitmap, d, p.depth);
  }

  lemma SameSide(sa: Bytes, a: Digest, sb: Bytes, b: Digest, right: bool)
    requires (if right then sa + a else a + sa) == (if right then sb + b else b + sb)
    requires |sa| == |sb|
    ensures a == b
  {
    if right {
      assert (sa + a)[|sa|..] == a && (sb + b)[|sb|..] == b;
    } else {
      assert (a + sa)[..32] == a && (b + sb)[..32] == b;
    }
  }

  predicate Sound(lane: Option<Lane>) {
    lane.Some? ==> |lane.value.tip| == 32 && 0 <= lane.value.blueScore < 0x8000_0000_0000_0000
  }

  /** What a seed can be the digest of. */
  lemma SeedIs(h: Hashes, p: SmtProof, key: Bytes, lane: Option<Lane>, qs: seq<Query>)
    requires Sound(lane) && (lane.Some? ==> p.foreign == None)
    requires forall q :: Among(q, SeedQueries(h, p, key, lane)) ==> Among(q, qs)
    ensures lane.Some? ==>
              && SeedOf(h, p, key, lane) == Hash(h, Query(COLLAPSED_NODE, key + Hash(h, LeafQuery(lane.value))))
              && Among(Query(COLLAPSED_NODE, key + Hash(h, LeafQuery(lane.value))), qs) && Among(LeafQuery(lane.value), qs)
    ensures lane == None && SeedOf(h, p, key, lane) != ZERO ==>
              && p.foreign.Some? && p.foreign.value.0 != key
              && SeedOf(h, p, key, lane) == Hash(h, Query(COLLAPSED_NODE, p.foreign.value.0 + p.foreign.value.1))
              && Among(Query(COLLAPSED_NODE, p.foreign.value.0 + p.foreign.value.1), qs)
  {
    hide Hash;
    var s := SeedQueries(h, p, key, lane);
    if lane.Some? {
      assert s[0] == LeafQuery(lane.value);
      assert Among(s[0], s) && Among(s[1], s);
    } else if s != [] {
      assert Among(s[0], s);
    }
  }

  /** A seed that stands where the other path still branches. */
  lemma SeedIsNoNode(h: Hashes, p: SmtProof, q: SmtProof, key: Bytes, lp: Option<Lane>, sq: Digest, qs: seq<Query>)
    requires WellFormed(p) && WellFormed(q) && |key| == 32 && Sound(lp) && CollisionFree(h, qs)
    requires (lp.Some? ==> p.foreign == None) && p.depth < q.depth
    requires forall x :: Among(x, SeedQueries(h, p, key, lp)) ==> Among(x, qs)
    requires Among(QueryAt(h, q, key, sq, p.depth), qs)
    ensures SeedOf(h, p, key, lp) != AtDepth(h, q, key, sq, p.depth)
  {
    hide CollisionFree, Among, WellFormed, AtDepth, SeedQueries;
    SeedIs(h, p, key, lp, qs);
    AboveIs(h, q, key, sq, p.depth);
    var node := QueryAt(h, q, key, sq, p.depth);
    NodeDomain(h, q, key, sq, p.depth);
    NoCollision(h, qs, node, node);
    if SeedOf(h, p, key, lp) != ZERO {
      if lp.Some? {
        NoCollision(h, qs, node, Query(COLLAPSED_NODE, key + Hash(h, LeafQuery(lp.value))));
      } else {
        NoCollision(h, qs, node, Query(COLLAPSED_NODE, p.foreign.value.0 + p.foreign.value.1));
      }
    }
  }

  lemma NodeDomain(h: Hashes, p: SmtProof, key: Bytes, seed: Digest, d: nat)
    requires WellFormed(p) && |key| == 32 && d < p.depth
    ensures QueryAt(h, p, key, seed, d).domain == ACTIVE_NODE
  {
    hide AtDepth, SiblingAt;
  }

  /** Equal seeds of paths to one key, at least one of them an inclusion, carry the same lane. */
  lemma SameSeedSameLane(h: Hashes, p: SmtProof, q: SmtProof, key: Bytes, lp: Option<Lane>, lq: Option<Lane>, qs: seq<Query>)
    requires WellFormed(p) && WellFormed(q) && |key| == 32 && Sound(lp) && Sound(lq) && CollisionFree(h, qs)
    requires (lp.Some? ==> p.foreign == None) && (lq.Some? ==> q.foreign == None) && lp.Some?
    requires forall x :: Among(x, SeedQueries(h, p, key, lp)) ==> Among(x, qs)
    requires forall x :: Among(x, SeedQueries(h, q, key, lq)) ==> Among(x, qs)
    requires SeedOf(h, p, key, lp) == SeedOf(h, q, key, lq)
    ensures lp == lq
  {
    hide CollisionFree, Among, SeedQueries, LeafQuery;
    SeedIs(h, p, key, lp, qs);
    SeedIs(h, q, key, lq, qs);
    var leaf := Hash(h, LeafQuery(lp.value));
    var cp := Query(COLLAPSED_NODE, key + leaf);
    NoCollision(h, qs, cp, cp);
    if lq.Some? {
      var cq := Query(COLLAPSED_NODE, key + Hash(h, LeafQuery(lq.value)));
      NoCollision(h, qs, cp, cq);
      assert cp.input[32..] == leaf && cq.input[32..] == Hash(h, LeafQuery(lq.value));
      NoCollision(h, qs, LeafQuery(lp.value), LeafQuery(lq.value));
      LeafNamesLane(lp.value, lq.value);
    } else {
      var cq := Query(COLLAPSED_NODE, q.foreign.value.0 + q.foreign.value.1);
      assert cp.input[..32] == key && cq.input[..32] == q.foreign.value.0;
      NoCollision(h, qs, cp, cq);
    }
  }

  lemma LeafNamesLane(a: Lane, b: Lane)
    requires Sound(Some(a)) && Sound(Some(b)) && LeafQuery(a) == LeafQuery(b)
    ensures a == b
  {
    var x, y := LeafQuery(a).input, LeafQuery(b).input;
    assert x[..32] == a.tip && y[..32] == b.tip;
    assert x[32..] == Le(a.blueScore, 8) && y[32..] == Le(b.blueScore, 8);
    Pow256Values();
    LeInjective(a.blueScore, b.blueScore, 8);
  }

  /** A lane root binds: two proofs of one key that give one root, at least one of them an inclusion, prove the same lane,
      whatever their depths; in particular no root has both an inclusion and a non-inclusion proof of a key. */
  lemma LaneRootBinds(h: Hashes, a: Bytes, b: Bytes, key: Bytes, la: Option<Lane>, lb: Option<Lane>, qs: seq<Query>)
    requires LaneRoot(h, a, key, la).Ok? && LaneRoot(h, b, key, lb) == LaneRoot(h, a, key, la)
    requires CollisionFree(h, qs)
    requires forall q :: Among(q, Queries(h, a, key, la)) || Among(q, Queries(h, b, key, lb)) ==> Among(q, qs)
    requires la.Some?
    ensures la == lb
  {
    hide CollisionFree, Among, AtDepth, SeedOf, SeedQueries, PathQueries, ParseProof;
    var p, q := ParseProof(a, la.Some?).value, ParseProof(b, lb.Some?).value;
    var sp, sq := SeedOf(h, p, key, la), SeedOf(h, q, key, lb);
    QueriesIn(h, a, key, la, qs);
    QueriesIn(h, b, key, lb, qs);
    if p.depth < q.depth {
      PathsAgree(h, p, q, key, sp, sq, qs, p.depth);
      AtEnd(h, p, key, sp);
      SeedIsNoNode(h, p, q, key, la, sq, qs);
    } else if q.depth < p.depth {
      PathsAgree(h, p, q, key, sp, sq, qs, q.depth);
      AtEnd(h, q, key, sq);
      SeedIsNoNode(h, q, p, key, lb, sp, qs);
    } else {
      PathsAgree(h, p, q, key, sp, sq, qs, p.depth);
      AtEnd(h, p, key, sp);
      AtEnd(h, q, key, sq);
      SameSeedSameLane(h, p, q, key, la, lb, qs);
    }
  }

  lemma AtEnd(h: Hashes, p: SmtProof, key: Bytes, seed: Digest)
    requires WellFormed(p) && |key| == 32
    ensures AtDepth(h, p, key, seed, p.depth) == seed
  {
  }

  lemma QueriesIn(h: Hashes, raw: Bytes, key: Bytes, lane: Option<Lane>, qs: seq<Query>)
    requires LaneRoot(h, raw, key, lane).Ok?
    requires forall q :: Among(q, Queries(h, raw, key, lane)) ==> Among(q, qs)
    ensures Sound(lane) && |key| == 32
    ensures var p := ParseProof(raw, lane.Some?).value;
            && WellFormed(p) && (lane.Some? ==> p.foreign == None)
            && (forall k | 0 <= k < p.depth :: Among(QueryAt(h, p, key, SeedOf(h, p, key, lane), k), qs))
            && (forall q :: Among(q, SeedQueries(h, p, key, lane)) ==> Among(q, qs))
  {
    hide Among, AtDepth, SeedQueries, PathQueries, ParseProof, SeedOf, QueryAt;
    var p := ParseProof(raw, lane.Some?).value;
    var seed := SeedOf(h, p, key, lane);
    var path, ends := PathQueries(h, p, key, seed, 0), SeedQueries(h, p, key, lane);
    forall q
      ensures Among(q, path) || Among(q, ends) ==> Among(q, qs)
    {
      AmongParts(q, path, ends);
    }
    forall k | 0 <= k < p.depth
      ensures Among(QueryAt(h, p, key, seed, k), qs)
    {
      PathAmong(h, p, key, seed, 0, k);
    }
  }

  // ---------------------------------------------------------------- the header commitment

  const COINBASE_LANE_KEY: Bytes := [
    0x8a, 0xa7, 0x80, 0x27, 0xdb, 0x66, 0xa1, 0x6c, 0xb6, 0x96, 0x92, 0xee, 0x0a, 0xf5, 0xcb, 0x76,
    0x73, 0x8e, 0xf8, 0x0a, 0xd1, 0x4c, 0x9d, 0x13, 0x92, 0x0d, 0x7f, 0xa3, 0xcc, 0x40, 0xb9, 0xe4]

  datatype LaneProof = LaneProof(laneKey: Bytes, smtProof: Bytes, lane: Option<Lane>, inactivityShortcut: Bytes,
                                 payloadAndCtxDigest: Bytes, parentSeqCommit: Bytes)
  datatype VerifiedLane = VerifiedLane(activityRoot: Digest, lanesRoot: Digest, parentSeq: Bytes, payloadAndCtxDigest: Bytes)

  function ActivityQuery(proof: LaneProof, lanesRoot: Digest): Query {
    Query(ACTIVITY_ROOT, proof.inactivityShortcut + lanesRoot)
  }

  function InnerQuery(h: Hashes, proof: LaneProof, lanesRoot: Digest): Query {
    Query(MERKLE_BRANCH, Hash(h, ActivityQuery(proof, lanesRoot)) + proof.payloadAndCtxDigest)
  }

  function HeaderQuery(h: Hashes, proof: LaneProof, lanesRoot: Digest): Query {
    Query(MERKLE_BRANCH, proof.parentSeqCommit + Hash(h, InnerQuery(h, proof, lanesRoot)))
  }

  function VerifyLaneProof(h: Hashes, headerSeq: Bytes, proof: LaneProof, expectedParentSeq: Option<Bytes>): Result<VerifiedLane> {
    var _ :- Check(proof.laneKey == COINBASE_LANE_KEY, WRONG_LANE);
    var lanesRoot :- LaneRoot(h, proof.smtProof, proof.laneKey, proof.lane);
    var _ :- Check(|proof.inactivityShortcut| == 32, BYTE_LENGTH);
    var _ :- Check(|proof.payloadAndCtxDigest| == 32 && |proof.parentSeqCommit| == 32, BYTE_LENGTH);
    var _ :- Check(expectedParentSeq.Some? ==> proof.parentSeqCommit == expectedParentSeq.value, PARENT_SEQ_MISMATCH);
    var _ :- Check(Hash(h, HeaderQuery(h, proof, lanesRoot)) == headerSeq, LANE_HEADER_COMMITMENT_MISMATCH);
    Ok(VerifiedLane(Hash(h, ActivityQuery(proof, lanesRoot)), lanesRoot, proof.parentSeqCommit, proof.payloadAndCtxDigest))
  }

  function ProofQueries(h: Hashes, headerSeq: Bytes, proof: LaneProof, expected: Option<Bytes>): seq<Query>
    requires VerifyLaneProof(h, headerSeq, proof, expected).Ok?
  {
    var root := VerifyLaneProof(h, headerSeq, proof, expected).value.lanesRoot;
    [HeaderQuery(h, proof, root), InnerQuery(h, proof, root), ActivityQuery(proof, root)]
    + Queries(h, proof.smtProof, proof.laneKey, proof.lane)
  }

  /** A header commitment binds: two lane proofs accepted against one header agree on the roots, the parent commitment and
      the payload digest; and if either proves the coinbase lane present, both prove the same tip and blue score. */
  lemma HeaderBindsLane(h: Hashes, headerSeq: Bytes, a: LaneProof, b: LaneProof, ea: Option<Bytes>, eb: Option<Bytes>)
    requires VerifyLaneProof(h, headerSeq, a, ea).Ok? && VerifyLaneProof(h, headerSeq, b, eb).Ok?
    requires CollisionFree(h, ProofQueries(h, headerSeq, a, ea) + ProofQueries(h, headerSeq, b, eb))
    ensures VerifyLaneProof(h, headerSeq, a, ea) == VerifyLaneProof(h, headerSeq, b, eb)
    ensures a.lane.Some? || b.lane.Some? ==> a.lane == b.lane
  {
    hide CollisionFree, Among, LaneRoot, Queries;
    var va, vb := VerifyLaneProof(h, headerSeq, a, ea).value, VerifyLaneProof(h, headerSeq, b, eb).value;
    var qa, qb := ProofQueries(h, headerSeq, a, ea), ProofQueries(h, headerSeq, b, eb);
    var qs := qa + qb;
    TopQueries(h, headerSeq, a, ea, qa, qb);
    TopQueries(h, headerSeq, b, eb, qb, qa);
    forall q
      ensures Among(q, qb + qa) <==> Among(q, qs)
    {
      AmongParts(q, qa, qb);
      AmongParts(q, qb, qa);
    }
    SameHeader(h, qs, a, b, va.lanesRoot, vb.lanesRoot);
    if a.lane.Some? {
      LaneRootBinds(h, a.smtProof, b.smtProof, a.laneKey, a.lane, b.lane, qs);
    } else if b.lane.Some? {
      LaneRootBinds(h, b.smtProof, a.smtProof, a.laneKey, b.lane, a.lane, qs);
    }
  }

  lemma TopQueries(h: Hashes, headerSeq: Bytes, a: LaneProof, ea: Option<Bytes>, qa: seq<Query>, qb: seq<Query>)
    requires VerifyLaneProof(h, headerSeq, a, ea).Ok? && qa == ProofQueries(h, headerSeq, a, ea)
    ensures var root := VerifyLaneProof(h, headerSeq, a, ea).value.lanesRoot;
            && Among(HeaderQuery(h, a, root), qa + qb) && Among(InnerQuery(h, a, root), qa + qb)
            && Among(ActivityQuery(a, root), qa + qb)
            && LaneRoot(h, a.smtProof, a.laneKey, a.lane) == Ok(root)
            && forall q :: Among(q, Queries(h, a.smtProof, a.laneKey, a.lane)) ==> Among(q, qa + qb)
  {
    hide Queries, LaneRoot;
    var root := VerifyLaneProof(h, headerSeq, a, ea).value.lanesRoot;
    assert (qa + qb)[0] == HeaderQuery(h, a, root);
    assert (qa + qb)[1] == InnerQuery(h, a, root);
    assert (qa + qb)[2] == ActivityQuery(a, root);
    var top := [HeaderQuery(h, a, root), InnerQuery(h, a, root), ActivityQuery(a, root)];
    var rest := Queries(h, a.smtProof, a.laneKey, a.lane);
    forall q
      ensures Among(q, rest) ==> Among(q, qa + qb)
    {
      AmongParts(q, top, rest);
      AmongParts(q, qa, qb);
    }
  }

  lemma SameHeader(h: Hashes, qs: seq<Query>, a: LaneProof, b: LaneProof, ra: Digest, rb: Digest)
    requires CollisionFree(h, qs)
    requires Among(HeaderQuery(h, a, ra), qs) && Among(InnerQuery(h, a, ra), qs) && Among(ActivityQuery(a, ra), qs)
    requires Among(HeaderQuery(h, b, rb), qs) && Among(InnerQuery(h, b, rb), qs) && Among(ActivityQuery(b, rb), qs)
    requires |a.inactivityShortcut| == |b.inactivityShortcut| == 32
    requires |a.payloadAndCtxDigest| == |b.payloadAndCtxDigest| == 32 && |a.parentSeqCommit| == |b.parentSeqCommit| == 32
    requires Hash(h, HeaderQuery(h, a, ra)) == Hash(h, HeaderQuery(h, b, rb))
    ensures ra == rb && a.inactivityShortcut == b.inactivityShortcut
    ensures a.parentSeqCommit == b.parentSeqCommit && a.payloadAndCtxDigest == b.payloadAndCtxDigest
  {
    hide CollisionFree, Among;
    NoCollision(h, qs, HeaderQuery(h, a, ra), HeaderQuery(h, b, rb));
    Halves(a.parentSeqCommit, Hash(h, InnerQuery(h, a, ra)), b.parentSeqCommit, Hash(h, InnerQuery(h, b, rb)));
    NoCollision(h, qs, InnerQuery(h, a, ra), InnerQuery(h, b, rb));
    Halves(Hash(h, ActivityQuery(a, ra)), a.payloadAndCtxDigest, Hash(h, ActivityQuery(b, rb)), b.payloadAndCtxDigest);
    NoCollision(h, qs, ActivityQuery(a, ra), ActivityQuery(b, rb));
    Halves(a.inactivityShortcut, ra, b.inactivityShortcut, rb);
  }
}
