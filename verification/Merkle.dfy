/** The padded Merkle root of miner-payload leaves (scripts/core/src/pass-a.ts:68-80,115-119,143-147). */
module Merkle {
  import opened Results
  import opened Bytes
  import opened Scripts
  import opened Hashing

  // ---------------------------------------------------------------- the recursion

  function PairQuery(l: Digest, r: Digest): Query {
    Query(MERKLE_BRANCH, l + r)
  }

  /** The second of pair `k`, or zero where it is missing. */
  function RightOf(level: seq<Digest>, k: nat): Digest
    requires 2 * k < |level|
  {
    if 2 * k + 1 < |level| then level[2 * k + 1] else ZERO
  }

  function PairQueries(level: seq<Digest>): (qs: seq<Query>)
    ensures |qs| == (|level| + 1) / 2
  {
    seq((|level| + 1) / 2, k requires 0 <= k < (|level| + 1) / 2 => PairQuery(level[2 * k], RightOf(level, k)))
  }

  function HashAll(h: Hashes, qs: seq<Query>): (ds: seq<Digest>)
    ensures |ds| == |qs|
  {
    seq(|qs|, k requires 0 <= k < |qs| => Hash(h, qs[k]))
  }

  /** The level above: neighbours hashed in pairs. */
  function Halved(h: Hashes, level: seq<Digest>): (next: seq<Digest>)
    ensures |next| == (|level| + 1) / 2
  {
    HashAll(h, PairQueries(level))
  }

  function Root(h: Hashes, leaves: seq<Digest>): Digest
    decreases |leaves|
  {
    if leaves == [] then ZERO else if |leaves| == 1 then leaves[0] else Root(h, Halved(h, leaves))
  }

  // ---------------------------------------------------------------- the padded loop

  function Padded(level: seq<Digest>, size: nat): (padded: seq<Option<Digest>>)
    requires |level| <= size
    ensures |padded| == size
  {
    seq(size, i requires 0 <= i < size => if i < |level| then Some(level[i]) else None)
  }

  /** One turn of the outer loop: the padded level above. */
  method HalveLevel(h: Hashes, level: seq<Option<Digest>>, ghost present: seq<Digest>) returns (next: seq<Option<Digest>>)
    requires |present| <= |level| && |level| % 2 == 0 && level == Padded(present, |level|)
    ensures |next| == |level| / 2 && |Halved(h, present)| <= |next| && next == Padded(Halved(h, present), |next|)
  {
    next := [];
    ghost var above := Halved(h, present);
    for k := 0 to |level| / 2
      invariant |next| == k
      invariant forall j | 0 <= j < k :: next[j] == if j < |above| then Some(above[j]) else None
    {
      var left, right := level[2 * k], level[2 * k + 1];
      next := next + [if left == None then None
                      else Some(Hash(h, PairQuery(left.value, if right.Some? then right.value else ZERO)))];
    }
  }

  /** The source pads to a power of two with absent nodes and halves the array; MERKLE_ROOT_MISSING never fires. */
  method PaddedRoot(h: Hashes, leaves: seq<Digest>) returns (r: Result<Digest>)
    ensures r == Ok(Root(h, leaves))
  {
    hide Halved, Padded;
    if leaves == [] {
      return Ok(ZERO);
    }
    if |leaves| == 1 {
      return Ok(leaves[0]);
    }
    var size := 1;
    ghost var height: nat := 0;
    while size < |leaves|
      invariant size < 2 * |leaves|
      invariant size == Pow2(height)
    {
      size, height := size * 2, height + 1;
    }
    var level := Padded(leaves, size);
    ghost var present := leaves;
    while |level| > 1
      invariant |present| <= |level| == Pow2(height) < 2 * |present|
      invariant level == Padded(present, |level|)
      invariant Root(h, present) == Root(h, leaves)
      decreases height
    {
      level := HalveLevel(h, level, present);
      present, height := Halved(h, present), height - 1;
    }
    PaddedHead(present, |level|);
    if level[0] == None {
      return Err(MERKLE_ROOT_MISSING);
    }
    r := Ok(level[0].value);
  }

  lemma PaddedHead(level: seq<Digest>, size: nat)
    requires 0 < |level| <= size
    ensures Padded(level, size)[0] == Some(level[0])
  {
  }

  // ---------------------------------------------------------------- the root binds its leaves

  /** The queries of all levels above `level`. */
  function LevelQueries(h: Hashes, level: seq<Digest>): seq<Query>
    decreases |level|
  {
    if |level| <= 1 then [] else PairQueries(level) + LevelQueries(h, Halved(h, level))
  }

  predicate AllAmong(qs: seq<Query>, all: seq<Query>) {
    forall k | 0 <= k < |qs| :: Among(qs[k], all)
  }

  lemma AllAmongParts(a: seq<Query>, b: seq<Query>, all: seq<Query>)
    requires AllAmong(a + b, all)
    ensures AllAmong(a, all) && AllAmong(b, all)
  {
    forall k | 0 <= k < |a|
      ensures Among(a[k], all)
    {
      assert (a + b)[k] == a[k];
    }
    forall k | 0 <= k < |b|
      ensures Among(b[k], all)
    {
      assert (a + b)[|a| + k] == b[k];
    }
  }

  predicate NoZero(level: seq<Digest>) {
    forall k | 0 <= k < |level| :: level[k] != ZERO
  }

  lemma HashesAreNonZero(h: Hashes, qs: seq<Query>, all: seq<Query>)
    requires CollisionFree(h, all) && AllAmong(qs, all)
    ensures NoZero(HashAll(h, qs))
  {
    forall k | 0 <= k < |qs|
      ensures HashAll(h, qs)[k] != ZERO
    {
      NoCollision(h, all, qs[k], qs[k]);
    }
  }

  lemma SameHashesSameQueries(h: Hashes, a: seq<Query>, b: seq<Query>, all: seq<Query>)
    requires CollisionFree(h, all) && AllAmong(a, all) && AllAmong(b, all)
    requires HashAll(h, a) == HashAll(h, b)
    ensures a == b
  {
    forall k | 0 <= k < |a|
      ensures a[k] == b[k]
    {
      assert HashAll(h, a)[k] == HashAll(h, b)[k];
      NoCollision(h, all, a[k], b[k]);
    }
  }

  /** Pairing loses nothing: a missing right neighbour cannot pass for a real one. */
  lemma PairsNameLevel(a: seq<Digest>, b: seq<Digest>)
    requires NoZero(a) && NoZero(b) && PairQueries(a) == PairQueries(b)
    ensures a == b
  {
    forall k | 0 <= k < (|a| + 1) / 2
      ensures a[2 * k] == b[2 * k] && RightOf(a, k) == RightOf(b, k)
    {
      assert PairQueries(a)[k] == PairQueries(b)[k];
      Halves(a[2 * k], RightOf(a, k), b[2 * k], RightOf(b, k));
    }
    if a != [] {
      LastRight(a);
      LastRight(b);
    }
    forall i | 0 <= i < |a|
      ensures a[i] == b[i]
    {
      var k := i / 2;
      assert i == 2 * k || i == 2 * k + 1;
    }
  }

  lemma LastRight(level: seq<Digest>)
    requires NoZero(level) && level != []
    ensures var k := (|level| + 1) / 2 - 1;
            RightOf(level, k) == ZERO <==> |level| == 2 * k + 1
  {
  }

  /** Levels between a list and its root. */
  function Height(n: nat): nat {
    if n <= 1 then 0 else 1 + Height((n + 1) / 2)
  }

  /** Lists of one height with one root are equal. */
  lemma {:induction false} SameHeightSameList(h: Hashes, a: seq<Digest>, b: seq<Digest>, all: seq<Query>)
    requires a != [] && b != [] && Height(|a|) == Height(|b|) && NoZero(a) && NoZero(b)
    requires CollisionFree(h, all) && AllAmong(LevelQueries(h, a), all) && AllAmong(LevelQueries(h, b), all)
    requires Root(h, a) == Root(h, b)
    ensures a == b
    decreases |a|
  {
    hide CollisionFree, PairQueries, NoZero;
    if |a| > 1 {
      AllAmongParts(PairQueries(a), LevelQueries(h, Halved(h, a)), all);
      AllAmongParts(PairQueries(b), LevelQueries(h, Halved(h, b)), all);
      HashesAreNonZero(h, PairQueries(a), all);
      HashesAreNonZero(h, PairQueries(b), all);
      SameHeightSameList(h, Halved(h, a), Halved(h, b), all);
      SameHashesSameQueries(h, PairQueries(a), PairQueries(b), all);
      PairsNameLevel(a, b);
    }
  }

  /** The level of `leaves` whose height is `n`: the list itself, or hashes of pairs. */
  lemma {:induction false} LevelOfHeight(h: Hashes, leaves: seq<Digest>, n: nat, all: seq<Query>) returns (pairs: seq<Query>)
    requires leaves != [] && n < Height(|leaves|) && AllAmong(LevelQueries(h, leaves), all)
    ensures pairs != [] && AllAmong(pairs, all) && forall k | 0 <= k < |pairs| :: pairs[k].domain == MERKLE_BRANCH
    ensures Height(|pairs|) == n && Root(h, HashAll(h, pairs)) == Root(h, leaves)
    ensures AllAmong(LevelQueries(h, HashAll(h, pairs)), all)
    decreases |leaves|
  {
    AllAmongParts(PairQueries(leaves), LevelQueries(h, Halved(h, leaves)), all);
    if n + 1 == Height(|leaves|) {
      pairs := PairQueries(leaves);
    } else {
      pairs := LevelOfHeight(h, Halved(h, leaves), n, all);
    }
  }

  /** Leaf digests are tagged apart from inner nodes. */
  predicate LeafTagged(qs: seq<Query>) {
    forall k | 0 <= k < |qs| :: qs[k].domain == PAYLOAD_LEAF
  }

  lemma HeightsAgree(h: Hashes, a: seq<Query>, b: seq<Query>, all: seq<Query>)
    requires a != [] && b != [] && LeafTagged(a) && CollisionFree(h, all)
    requires AllAmong(a, all) && AllAmong(b, all)
    requires AllAmong(LevelQueries(h, HashAll(h, a)), all) && AllAmong(LevelQueries(h, HashAll(h, b)), all)
    requires Root(h, HashAll(h, a)) == Root(h, HashAll(h, b))
    ensures Height(|a|) >= Height(|b|)
  {
    hide CollisionFree, LevelQueries, Root, AllAmong, HashAll;
    if Height(|a|) < Height(|b|) {
      var pairs := LevelOfHeight(h, HashAll(h, b), Height(|a|), all);
      HashesAreNonZero(h, a, all);
      HashesAreNonZero(h, pairs, all);
      SameHeightSameList(h, HashAll(h, a), HashAll(h, pairs), all);
      assert a[0].domain == PAYLOAD_LEAF && pairs[0].domain == MERKLE_BRANCH;
      SameHashesSameQueries(h, a, pairs, all);
    }
  }

  /** The root determines the whole list of leaves, its length included. */
  lemma RootBindsLeaves(h: Hashes, a: seq<Query>, b: seq<Query>, all: seq<Query>)
    requires LeafTagged(a) && LeafTagged(b) && CollisionFree(h, all)
    requires AllAmong(a, all) && AllAmong(b, all)
    requires AllAmong(LevelQueries(h, HashAll(h, a)), all) && AllAmong(LevelQueries(h, HashAll(h, b)), all)
    requires Root(h, HashAll(h, a)) == Root(h, HashAll(h, b))
    ensures a == b
  {
    hide CollisionFree, LevelQueries, AllAmong, HashAll, Root;
    HashesAreNonZero(h, a, all);
    HashesAreNonZero(h, b, all);
    if a == [] || b == [] {
      RootZero(h, a, all);
      RootZero(h, b, all);
    } else {
      HeightsAgree(h, a, b, all);
      HeightsAgree(h, b, a, all);
      SameHeightSameList(h, HashAll(h, a), HashAll(h, b), all);
      SameHashesSameQueries(h, a, b, all);
    }
  }

  /** Only the empty list has the zero root. */
  lemma RootZero(h: Hashes, a: seq<Query>, all: seq<Query>)
    requires CollisionFree(h, all) && AllAmong(a, all) && AllAmong(LevelQueries(h, HashAll(h, a)), all)
    ensures Root(h, HashAll(h, a)) == ZERO <==> a == []
  {
    hide CollisionFree;
    HashesAreNonZero(h, a, all);
    if |a| > 1 {
      var pairs := LevelOfHeight(h, HashAll(h, a), 0, all);
      HashesAreNonZero(h, pairs, all);
    }
  }

  // ---------------------------------------------------------------- leaves

  function LeadingZeros(work: Bytes): (n: nat)
    ensures n <= |work|
  {
    if work == [] || work[0] != 0 then 0 else 1 + LeadingZeros(work[1..])
  }

  function Stripped(work: Bytes): Bytes {
    work[LeadingZeros(work)..]
  }

  /** The leaf of a block: its hash, its blue work without leading zeros, and the digest of its coinbase payload. */
  function LeafQuery(h: Hashes, hash: Bytes, work: Bytes, payload: Bytes): Query {
    Query(PAYLOAD_LEAF, hash + (Le(|Stripped(work)|, 8) + (Stripped(work) + Hash(h, Query(PAYLOAD_DIGEST, payload)))))
  }

  /** A leaf names its block's hash, work and payload digest. */
  lemma LeafNamesBlock(h: Hashes, a: Bytes, wa: Bytes, pa: Bytes, b: Bytes, wb: Bytes, pb: Bytes)
    requires |a| == |b| == 32 && |wa| <= 24 && |wb| <= 24
    requires LeafQuery(h, a, wa, pa) == LeafQuery(h, b, wb, pb)
    ensures a == b && Stripped(wa) == Stripped(wb)
    ensures Hash(h, Query(PAYLOAD_DIGEST, pa)) == Hash(h, Query(PAYLOAD_DIGEST, pb))
  {
    hide Stripped, Le;
    var da, db := Hash(h, Query(PAYLOAD_DIGEST, pa)), Hash(h, Query(PAYLOAD_DIGEST, pb));
    var sa, sb := Stripped(wa), Stripped(wb);
    StrippedShort(wa);
    StrippedShort(wb);
    Halves(a, Le(|sa|, 8) + (sa + da), b, Le(|sb|, 8) + (sb + db));
    Halves(Le(|sa|, 8), sa + da, Le(|sb|, 8), sb + db);
    Pow256Values();
    LeInjective(|sa|, |sb|, 8);
    Halves(sa, da, sb, db);
  }

  lemma StrippedShort(work: Bytes)
    ensures |Stripped(work)| <= |work|
  {
  }
}
