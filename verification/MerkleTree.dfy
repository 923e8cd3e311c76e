/** The payload tree defined from the root down, and its leaves byte by byte: what the halving of levels must come to
    (scripts/core/src/pass-a.ts:68-80,115-119,143-147). */
module MerkleTree {
  import opened Bytes
  import opened Scripts
  import opened Hashing
  import opened Merkle

  /** The tree of height `k` over a list: its first 2^(k-1) leaves go left and the rest right, and a side without leaves is the
      zero node. */
  function Tree(h: Hashes, leaves: seq<Digest>, k: nat): Digest
    requires 0 < |leaves| <= Pow2(k)
  {
    if k == 0 then leaves[0]
    else
      var half := Pow2(k - 1);
      if |leaves| <= half then h.domain(MERKLE_BRANCH, Tree(h, leaves, k - 1) + Zeros(32))
      else h.domain(MERKLE_BRANCH, Tree(h, leaves[..half], k - 1) + Tree(h, leaves[half..], k - 1))
  }

  lemma HalvedAt(h: Hashes, level: seq<Digest>, i: nat)
    requires 2 * i < |level|
    ensures i < |Halved(h, level)|
    ensures Halved(h, level)[i]
         == h.domain(MERKLE_BRANCH, level[2 * i] + if 2 * i + 1 < |level| then level[2 * i + 1] else Zeros(32))
  {
  }

  /** Halving splits at an even place. */
  lemma HalvedSplits(h: Hashes, level: seq<Digest>, n: nat)
    requires 2 * n <= |level|
    ensures Halved(h, level[..2 * n]) == Halved(h, level)[..n]
    ensures Halved(h, level[2 * n..]) == Halved(h, level)[n..]
  {
    hide Halved;
    forall i | 0 <= i < n
      ensures Halved(h, level[..2 * n])[i] == Halved(h, level)[i]
    {
      HalvedAt(h, level[..2 * n], i);
      HalvedAt(h, level, i);
    }
    forall i | 0 <= i < |Halved(h, level)| - n
      ensures Halved(h, level[2 * n..])[i] == Halved(h, level)[n + i]
    {
      HalvedAt(h, level[2 * n..], i);
      HalvedAt(h, level, n + i);
    }
  }

  /** A tree is the tree of one level less over its halved list. */
  lemma {:induction false} TreeOfHalved(h: Hashes, leaves: seq<Digest>, k: nat)
    requires 0 < |leaves| <= Pow2(k + 1)
    ensures 0 < |Halved(h, leaves)| <= Pow2(k)
    ensures Tree(h, leaves, k + 1) == Tree(h, Halved(h, leaves), k)
  {
    hide Halved, Tree;
    HalvedAt(h, leaves, 0);
    if k == 0 {
      LowTree(h, leaves);
      OneLeaf(h, Halved(h, leaves));
    } else {
      var half := Pow2(k - 1);
      TreeStep(h, leaves, k);
      TreeStep(h, Halved(h, leaves), k - 1);
      if |leaves| <= 2 * half {
        TreeOfHalved(h, leaves, k - 1);
      } else {
        HalvedSplits(h, leaves, half);
        TreeOfHalved(h, leaves[..2 * half], k - 1);
        TreeOfHalved(h, leaves[2 * half..], k - 1);
      }
    }
  }

  lemma TreeStep(h: Hashes, leaves: seq<Digest>, k: nat)
    requires 0 < |leaves| <= Pow2(k + 1)
    ensures Pow2(k + 1) == 2 * Pow2(k)
    ensures Tree(h, leaves, k + 1)
         == if |leaves| <= Pow2(k) then h.domain(MERKLE_BRANCH, Tree(h, leaves, k) + Zeros(32))
            else h.domain(MERKLE_BRANCH, Tree(h, leaves[..Pow2(k)], k) + Tree(h, leaves[Pow2(k)..], k))
  {
  }

  lemma LowTree(h: Hashes, leaves: seq<Digest>)
    requires 0 < |leaves| <= 2
    ensures |leaves| <= Pow2(1)
    ensures Tree(h, leaves, 1) == h.domain(MERKLE_BRANCH, leaves[0] + if |leaves| == 2 then leaves[1] else Zeros(32))
  {
    assert Pow2(0) == 1 && Pow2(1) == 2 * Pow2(0);
  }

  lemma {:induction false} Fills(n: nat)
    ensures n <= Pow2(Height(n))
  {
    if n > 1 {
      Fills((n + 1) / 2);
    }
  }

  /** Halving level by level yields the root of the tree of the least height that holds the leaves. */
  lemma {:induction false} RootIsTree(h: Hashes, leaves: seq<Digest>)
    requires leaves != []
    ensures |leaves| <= Pow2(Height(|leaves|)) && (|leaves| > 1 ==> Pow2(Height(|leaves|)) < 2 * |leaves|)
    ensures Root(h, leaves) == Tree(h, leaves, Height(|leaves|))
    decreases |leaves|
  {
    hide Halved, Tree, Pow2;
    Fills(|leaves|);
    if |leaves| > 1 {
      var k := Height((|leaves| + 1) / 2);
      Fills((|leaves| + 1) / 2);
      RootIsTree(h, Halved(h, leaves));
      assert |leaves| <= Pow2(k + 1);
      TreeOfHalved(h, leaves, k);
      Least(|leaves|);
    } else {
      OneLeaf(h, leaves);
    }
  }

  lemma OneLeaf(h: Hashes, leaves: seq<Digest>)
    requires |leaves| == 1
    ensures |leaves| <= Pow2(0) && Tree(h, leaves, 0) == leaves[0]
  {
  }

  lemma {:induction false} Least(n: nat)
    requires n > 1
    ensures Pow2(Height(n)) < 2 * n
  {
    if n > 2 {
      Least((n + 1) / 2);
      TwiceLess(Height((n + 1) / 2), n);
    }
  }

  lemma {:induction false} TwiceLess(k: nat, n: nat)
    requires n > 2 && k > 0 && Pow2(k) < 2 * ((n + 1) / 2)
    ensures 2 * Pow2(k) < 2 * n
  {
    assert Pow2(k) == 2 * Pow2(k - 1);
    EvenLess(Pow2(k - 1), n);
  }

  lemma EvenLess(p: nat, n: nat)
    requires 2 * p < 2 * ((n + 1) / 2)
    ensures 2 * p < n
  {
  }

  // ---------------------------------------------------------------- leaves

  lemma {:induction false} ZerosLead(work: Bytes)
    ensures forall i | 0 <= i < LeadingZeros(work) :: work[i] == 0
    ensures LeadingZeros(work) < |work| ==> work[LeadingZeros(work)] != 0
  {
    if work != [] && work[0] == 0 {
      ZerosLead(work[1..]);
      forall i | 0 <= i < LeadingZeros(work)
        ensures work[i] == 0
      {
        assert i > 0 ==> work[i] == work[1..][i - 1];
      }
    }
  }

  /** A leaf holds the block hash, the length of the work without its leading zero bytes, that work, and the payload digest. */
  lemma LeafLayout(h: Hashes, hash: Bytes, work: Bytes, payload: Bytes) returns (z: nat)
    requires |hash| == 32 && |work| <= 24
    ensures z <= |work| && (forall i | 0 <= i < z :: work[i] == 0) && (z < |work| ==> work[z] != 0)
    ensures var q := LeafQuery(h, hash, work, payload);
            && q.domain == PAYLOAD_LEAF && |q.input| == 32 + 8 + (|work| - z) + 32
            && q.input[..32] == hash && FromLe(q.input[32..40]) == |work| - z && q.input[40..40 + (|work| - z)] == work[z..]
            && q.input[40 + (|work| - z)..] == h.domain(PAYLOAD_DIGEST, payload)
  {
    hide Le;
    z := LeadingZeros(work);
    ZerosLead(work);
    Pow256Values();
    var size, digest := Le(|work| - z, 8), h.domain(PAYLOAD_DIGEST, payload);
    FromLeOfLe(|work| - z, 8);
    assert LeafQuery(h, hash, work, payload).input == hash + (size + (work[z..] + digest));
    assert (hash + (size + (work[z..] + digest)))[32..40] == size;
  }
}
