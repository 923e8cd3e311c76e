/** Finding the first selected-chain block at or after the draw boundary, and assembling its opening
    (scripts/core/src/pass-a.ts:148-174,184-230). */
module Crossing {
  import opened Results
  import opened Bytes
  import opened Layout
  import opened State
  import opened Directory
  import opened Scripts
  import opened Hashing
  import opened Lanes
  import opened Draws
  import P = Protocol

  datatype Header = Header(hash: Bytes, daa: int, blue: int, timestamp: int, seqCommit: Bytes, selectedParent: Bytes)

  // ---------------------------------------------------------------- the chain

  /** Selected-chain headers: each names the previous one as its selected parent, and DAA scores rise. */
  predicate SelectedChain(chain: seq<Header>) {
    forall i, j | 0 <= i < j < |chain| ::
      chain[i].daa < chain[j].daa && (j == i + 1 ==> chain[j].selectedParent == chain[i].hash)
  }

  /** Index of the first row at or after the boundary; the number of rows when there is none. */
  function FirstAt(rows: seq<Header>, boundary: int): (i: nat)
    ensures i <= |rows|
    ensures i < |rows| ==> rows[i].daa >= boundary
    ensures forall j | 0 <= j < i :: rows[j].daa < boundary
  {
    if rows == [] then 0
    else
      var n := |rows| - 1;
      var i := FirstAt(rows[..n], boundary);
      if i < n || rows[n].daa >= boundary then i else |rows|
  }

  /** The crossing after the anchor: the first block at or after the boundary, and the one before it. */
  predicate IsCrossing(chain: seq<Header>, a: nat, boundary: int, parent: Header, target: Header) {
    exists i {:trigger CrossesAt(chain, i, boundary)} | a < i < |chain| ::
      CrossesAt(chain, i, boundary) && parent == chain[i - 1] && target == chain[i]
  }

  predicate CrossesAt(chain: seq<Header>, i: nat, boundary: int)
    requires 0 < i < |chain|
  {
    chain[i - 1].daa < boundary <= chain[i].daa
  }

  lemma DaaRises(chain: seq<Header>, i: nat, j: nat)
    requires SelectedChain(chain) && i <= j < |chain|
    ensures chain[i].daa <= chain[j].daa
  {
  }

  lemma CrossesOnce(chain: seq<Header>, i: nat, j: nat, boundary: int)
    requires SelectedChain(chain) && 0 < i < |chain| && 0 < j < |chain|
    requires CrossesAt(chain, i, boundary) && CrossesAt(chain, j, boundary)
    ensures i == j
  {
    hide SelectedChain;
    if i < j {
      DaaRises(chain, i, j - 1);
    } else if j < i {
      DaaRises(chain, j, i - 1);
    }
  }

  /** A selected chain crosses a boundary at most once. */
  lemma CrossingUnique(chain: seq<Header>, a: nat, b: nat, boundary: int, p: Header, t: Header, q: Header, u: Header)
    requires SelectedChain(chain)
    requires IsCrossing(chain, a, boundary, p, t) && IsCrossing(chain, b, boundary, q, u)
    ensures p == q && t == u
  {
    hide SelectedChain;
    var i :| a < i < |chain| && CrossesAt(chain, i, boundary) && p == chain[i - 1] && t == chain[i];
    var j :| b < j < |chain| && CrossesAt(chain, j, boundary) && q == chain[j - 1] && u == chain[j];
    CrossesOnce(chain, i, j, boundary);
  }

  // ---------------------------------------------------------------- the index path

  /** The checks on an indexed candidate, `parent` being the block its header names. */
  function FromIndex(anchor: Header, parent: Header, target: Header, boundary: int): Result<(Header, Header)> {
    var _ :- Check(anchor.daa <= parent.daa < boundary <= target.daa, CANDIDATE_NOT_FIRST_CROSSING);
    Ok((parent, target))
  }

  /** On a selected chain, exactly the crossing block passes as a candidate. */
  lemma IndexFindsCrossing(chain: seq<Header>, a: nat, k: nat, boundary: int)
    requires SelectedChain(chain) && a < |chain| && 0 < k < |chain| && chain[a].daa < boundary
    ensures FromIndex(chain[a], chain[k - 1], chain[k], boundary).Ok?
       <==> IsCrossing(chain, a, boundary, chain[k - 1], chain[k])
  {
    if FromIndex(chain[a], chain[k - 1], chain[k], boundary).Ok? {
      if k <= a {
        DaaRises(chain, k, a);
      }
      assert CrossesAt(chain, k, boundary);
    }
    if IsCrossing(chain, a, boundary, chain[k - 1], chain[k]) {
      var i :| a < i < |chain| && CrossesAt(chain, i, boundary) && chain[k - 1] == chain[i - 1] && chain[k] == chain[i];
      DaaRises(chain, a, i - 1);
    }
  }

  // ---------------------------------------------------------------- the paged scan

  const MAX_PAGES := 8
  const MAX_ROWS := 512

  function Rows(pages: seq<seq<Header>>): seq<Header> {
    if pages == [] then [] else Rows(pages[..|pages| - 1]) + pages[|pages| - 1]
  }

  /** Any paging of consecutive chain blocks after the anchor, in at most eight non-empty pages. */
  predicate Paging(chain: seq<Header>, a: nat, pages: seq<seq<Header>>) {
    && |pages| <= 8
    && (forall k | 0 <= k < |pages| :: 0 < |pages[k]| <= 512)
    && a + 1 + |Rows(pages)| <= |chain|
    && Rows(pages) == chain[a + 1..a + 1 + |Rows(pages)|]
  }

  /** What a scan of these pages comes to: the first row at or after the boundary and the block before it. */
  function Found(chain: seq<Header>, a: nat, pages: seq<seq<Header>>, boundary: int): Option<(Header, Header)>
    requires a < |chain|
  {
    var rows := Rows(pages);
    var i := FirstAt(rows, boundary);
    if i == |rows| then None else Some((if i == 0 then chain[a] else rows[i - 1], rows[i]))
  }

  lemma {:induction false} PageWithin(pages: seq<seq<Header>>, n: nat, i: nat)
    requires n < |pages| && i < |pages[n]|
    ensures |Rows(pages[..n])| + i < |Rows(pages)|
    ensures Rows(pages)[|Rows(pages[..n])| + i] == pages[n][i]
    ensures |Rows(pages[..n + 1])| == |Rows(pages[..n])| + |pages[n]|
    decreases |pages|
  {
    var last := |pages| - 1;
    assert pages[..n + 1][..n] == pages[..n];
    if n == last {
      assert pages[..n + 1] == pages;
    } else {
      assert pages[..last][..n] == pages[..n] && pages[..last][..n + 1] == pages[..n + 1];
      PageWithin(pages[..last], n, i);
    }
  }

  /** The scan: page after page, row after row, until a row reaches the boundary. However the node pages its answers, it finds
      the crossing when some page reaches the boundary, and reports that it is unavailable when none does. */
  method Scan(chain: seq<Header>, a: nat, pages: seq<seq<Header>>, boundary: int) returns (r: Result<(Header, Header)>)
    requires SelectedChain(chain) && a < |chain| && chain[a].daa < boundary && Paging(chain, a, pages)
    ensures r == match Found(chain, a, pages, boundary)
                 case Some(pair) => Ok(pair)
                 case None =>
                   Err(if |pages| == 8 then FIRST_CROSSING_UNAVAILABLE else SELECTED_CHAIN_BATCH_UNAVAILABLE)
  {
    hide SelectedChain, FirstAt, Rows;
    NoRows();
    var previous := chain[a];
    ghost var at := a;
    for page := 0 to MAX_PAGES
      invariant page <= |pages|
      invariant at == a + |Rows(pages[..page])| && at < |chain|
      invariant previous == chain[at] && previous.daa < boundary
    {
      var rows := if page < |pages| then pages[page] else [];
      if !(0 < |rows| <= MAX_ROWS) {
        assert page == |pages| && pages[..page] == pages;
        NeverReached(chain, a, pages, boundary);
        return Err(SELECTED_CHAIN_BATCH_UNAVAILABLE);
      }
      for i := 0 to |rows|
        invariant at == a + |Rows(pages[..page])| + i && at < |chain|
        invariant previous == chain[at] && previous.daa < boundary
      {
        var row := rows[i];
        PageWithin(pages, page, i);
        RowIs(chain, a, Rows(pages), at - a);
        Linked(chain, at);
        if row.daa <= previous.daa {
          return Err(SELECTED_CHAIN_DAA_NOT_INCREASING);
        }
        if row.daa >= boundary {
          if row.selectedParent != previous.hash {
            return Err(SELECTED_PARENT_DISCONTINUITY);
          }
          FirstReached(chain, a, pages, at - a, boundary);
          return Ok((previous, row));
        }
        previous, at := row, at + 1;
      }
      PageWithin(pages, page, 0);
    }
    assert pages[..MAX_PAGES] == pages;
    NeverReached(chain, a, pages, boundary);
    r := Err(FIRST_CROSSING_UNAVAILABLE);
  }

  lemma Linked(chain: seq<Header>, i: nat)
    requires SelectedChain(chain) && i + 1 < |chain|
    ensures chain[i].daa < chain[i + 1].daa && chain[i + 1].selectedParent == chain[i].hash
  {
  }

  lemma NoRows()
    ensures Rows([]) == []
  {
  }

  lemma FirstReached(chain: seq<Header>, a: nat, pages: seq<seq<Header>>, i: nat, boundary: int)
    requires SelectedChain(chain) && a < |chain| && Paging(chain, a, pages) && i < |Rows(pages)|
    requires chain[a + i].daa < boundary <= Rows(pages)[i].daa
    ensures FirstAt(Rows(pages), boundary) == i
    ensures Found(chain, a, pages, boundary) == Some((chain[a + i], chain[a + i + 1]))
  {
    var rows := Rows(pages);
    forall j | 0 <= j < i
      ensures rows[j].daa < boundary
    {
      RowIs(chain, a, rows, j);
      DaaRises(chain, a + 1 + j, a + i);
    }
    RowIs(chain, a, rows, i);
    if i > 0 {
      RowIs(chain, a, rows, i - 1);
    }
  }

  lemma NeverReached(chain: seq<Header>, a: nat, pages: seq<seq<Header>>, boundary: int)
    requires SelectedChain(chain) && a < |chain| && Paging(chain, a, pages)
    requires chain[a + |Rows(pages)|].daa < boundary
    ensures FirstAt(Rows(pages), boundary) == |Rows(pages)|
  {
    var rows := Rows(pages);
    forall i | 0 <= i < |rows|
      ensures rows[i].daa < boundary
    {
      RowIs(chain, a, rows, i);
      DaaRises(chain, a + 1 + i, a + |rows|);
    }
  }

  lemma RowIs(chain: seq<Header>, a: nat, rows: seq<Header>, i: nat)
    requires a + 1 + |rows| <= |chain| && rows == chain[a + 1..a + 1 + |rows|] && i < |rows|
    ensures rows[i] == chain[a + 1 + i]
  {
  }

  lemma PagesFit(chain: seq<Header>, a: nat, pages: seq<seq<Header>>)
    requires Paging(chain, a, pages)
    ensures a + 1 + |Rows(pages)| <= |chain|
  {
  }

  lemma PagedRow(chain: seq<Header>, a: nat, pages: seq<seq<Header>>, i: nat)
    requires Paging(chain, a, pages) && i < |Rows(pages)|
    ensures a + 1 + i < |chain| && Rows(pages)[i] == chain[a + 1 + i]
  {
    hide Rows;
    RowIs(chain, a, Rows(pages), i);
  }

  /** A scan succeeds exactly when its last row has reached the boundary, and then with the crossing. */
  lemma ScanFindsCrossing(chain: seq<Header>, a: nat, pages: seq<seq<Header>>, boundary: int)
    requires SelectedChain(chain) && a < |chain| && chain[a].daa < boundary && Paging(chain, a, pages)
    ensures var f := Found(chain, a, pages, boundary);
            && (f.Some? <==> chain[a + |Rows(pages)|].daa >= boundary)
            && (f.Some? ==> IsCrossing(chain, a, boundary, f.value.0, f.value.1))
  {
    hide SelectedChain, Rows, FirstAt, Paging;
    PagesFit(chain, a, pages);
    var rows := Rows(pages);
    var i := FirstAt(rows, boundary);
    if i < |rows| {
      PagedRow(chain, a, pages, i);
      if i > 0 {
        PagedRow(chain, a, pages, i - 1);
      }
      assert CrossesAt(chain, a + 1 + i, boundary);
      DaaRises(chain, a + 1 + i, a + |rows|);
    } else if |rows| > 0 {
      PagedRow(chain, a, pages, |rows| - 1);
    }
  }

  /** The crossing does not depend on how it was found: any two pagings that reach the boundary find one pair of blocks, a
      paging that goes further still finds it, and an accepted index candidate is that pair. */
  lemma PathIndependent(chain: seq<Header>, a: nat, boundary: int, pages: seq<seq<Header>>, others: seq<seq<Header>>, k: nat)
    requires SelectedChain(chain) && a < |chain| && chain[a].daa < boundary && 0 < k < |chain|
    requires Paging(chain, a, pages) && Paging(chain, a, others) && Found(chain, a, pages, boundary).Some?
    ensures var found := Found(chain, a, pages, boundary).value;
            && (Found(chain, a, others, boundary).Some? ==> Found(chain, a, others, boundary).value == found)
            && (|Rows(others)| >= |Rows(pages)| ==> Found(chain, a, others, boundary).Some?)
            && (var indexed := FromIndex(chain[a], chain[k - 1], chain[k], boundary); indexed.Ok? ==> indexed.value == found)
  {
    hide SelectedChain, Paging, Found;
    var found := Found(chain, a, pages, boundary).value;
    ScanFindsCrossing(chain, a, pages, boundary);
    ScanFindsCrossing(chain, a, others, boundary);
    PagingFits(chain, a, pages);
    PagingFits(chain, a, others);
    if |Rows(others)| >= |Rows(pages)| {
      DaaRises(chain, a + |Rows(pages)|, a + |Rows(others)|);
    }
    if Found(chain, a, others, boundary).Some? {
      var other := Found(chain, a, others, boundary).value;
      CrossingUnique(chain, a, a, boundary, found.0, found.1, other.0, other.1);
    }
    if FromIndex(chain[a], chain[k - 1], chain[k], boundary).Ok? {
      IndexFindsCrossing(chain, a, k, boundary);
      CrossingUnique(chain, a, a, boundary, found.0, found.1, chain[k - 1], chain[k]);
    }
  }

  lemma PagingFits(chain: seq<Header>, a: nat, pages: seq<seq<Header>>)
    requires Paging(chain, a, pages)
    ensures a + |Rows(pages)| < |chain|
  {
  }

  // ---------------------------------------------------------------- assembling the opening

  function U63(n: int): Result<Bytes> {
    if 0 <= n < 0x8000_0000_0000_0000 then Ok(Le(n, 8)) else Err(INTEGER_RANGE)
  }

  /** The digest that binds a block's timestamps and scores to its payload root. */
  function ContextQuery(parent: Header, current: Header): Result<Query> {
    var timestamp :- U63(parent.timestamp);
    var daa :- U63(current.daa);
    var blue :- U63(current.blue);
    Ok(Query(MERGESET_CONTEXT, timestamp + daa + blue))
  }

  function VerifyPayload(h: Hashes, current: Header, proofDigest: Bytes, root: Digest, parent: Header): Result<()> {
    var _ :- Check(current.selectedParent == parent.hash, CONTEXT_SELECTED_PARENT);
    var context :- ContextQuery(parent, current);
    Check(Hash(h, Query(MERKLE_BRANCH, Hash(h, context) + root)) == proofDigest, PAYLOAD_CONTEXT_HEADER_MISMATCH)
  }

  /** One block's half of the opening. */
  function OpeningHalf(activity: Digest, root: Digest, parent: Header, current: Header): Result<Bytes> {
    var timestamp :- U63(parent.timestamp);
    var daa :- U63(current.daa);
    var blue :- U63(current.blue);
    Ok(activity + (root + (timestamp + daa + blue)))
  }

  datatype Gathered = Gathered(parent: Header, target: Header, parentOfParent: Header, parentLane: LaneProof,
                               targetLane: LaneProof, parentRoot: Digest, targetRoot: Digest)

  /** The opening, rebuilt from the two lane proofs, the payload roots and the headers. */
  function Assemble(h: Hashes, boundary: int, g: Gathered): Result<Bytes> {
    var _ :- Check(g.parent.daa < boundary <= g.target.daa && g.target.blue > g.parent.blue, FIRST_CROSSING);
    var _ :- Check(g.target.selectedParent == g.parent.hash, NOT_DIRECT_SELECTED_PARENT);
    var p :- VerifyLaneProof(h, g.parent.seqCommit, g.parentLane, None);
    var t :- VerifyLaneProof(h, g.target.seqCommit, g.targetLane, Some(g.parent.seqCommit));
    var _ :- Check(p.parentSeq == g.parentOfParent.seqCommit, P_PARENT_HEADER_COMMITMENT);
    var _ :- VerifyPayload(h, g.parent, p.payloadAndCtxDigest, g.parentRoot, g.parentOfParent);
    var _ :- VerifyPayload(h, g.target, t.payloadAndCtxDigest, g.targetRoot, g.parent);
    var _ :- Check(|g.target.hash| == 32, BYTE_LENGTH);
    var targetHalf :- OpeningHalf(t.activityRoot, g.targetRoot, g.parent, g.target);
    var parentHalf :- OpeningHalf(p.activityRoot, g.parentRoot, g.parentOfParent, g.parent);
    var opening := g.target.hash + (targetHalf + (p.parentSeq + parentHalf));
    var _ :- Check(|opening| == OPENING_BYTES, PASS_A_LENGTH);
    var parentSeq := OpenSeq(h, opening, 152, opening[120..152]);
    var _ :- Check(parentSeq == g.parent.seqCommit, P_OPENING_COMMITMENT);
    var _ :- Check(OpenSeq(h, opening, 32, parentSeq) == g.target.seqCommit, T_OPENING_COMMITMENT);
    Ok(opening)
  }

  /** Where the pieces of an opening lie. */
  lemma OpeningSlices(hash: Bytes, ta: Bytes, tr: Bytes, tt: Bytes, td: Bytes, tb: Bytes, seqCommit: Bytes, pa: Bytes, pr: Bytes,
                      pt: Bytes, pd: Bytes, pb: Bytes)
    requires |hash| == |ta| == |tr| == |seqCommit| == |pa| == |pr| == 32
    requires |tt| == |td| == |tb| == |pt| == |pd| == |pb| == 8
    ensures var o := hash + ((ta + (tr + (tt + td + tb))) + (seqCommit + (pa + (pr + (pt + pd + pb)))));
            && |o| == OPENING_BYTES
            && o[..32] == hash && o[32..64] == ta && o[64..96] == tr && o[96..120] == tt + td + tb
            && o[96..104] == tt && o[104..112] == td && o[112..120] == tb
            && o[120..152] == seqCommit && o[152..184] == pa && o[184..216] == pr && o[216..240] == pt + pd + pb
            && o[216..224] == pt && o[224..232] == pd && o[232..240] == pb
  {
    var parentHalf := pa + (pr + (pt + pd + pb));
    var rest := seqCommit + parentHalf;
    var targetHalf := ta + (tr + (tt + td + tb));
    var o := hash + (targetHalf + rest);
    assert o[32..] == targetHalf + rest && o[..32] == hash;
    assert (targetHalf + rest)[..88] == targetHalf && (targetHalf + rest)[88..] == rest;
    HalfSlices(ta, tr, tt, td, tb);
    HalfSlices(pa, pr, pt, pd, pb);
    assert o[32..120] == targetHalf;
    assert o[120..] == rest;
    assert rest[..32] == seqCommit && rest[32..] == parentHalf;
    assert o[120..152] == rest[..32] && o[152..240] == rest[32..];
    HalfAt(o, 32, targetHalf);
    HalfAt(o, 152, parentHalf);
  }

  lemma HalfSlices(a: Bytes, r: Bytes, t: Bytes, d: Bytes, b: Bytes)
    requires |a| == |r| == 32 && |t| == |d| == |b| == 8
    ensures var half := a + (r + (t + d + b));
            && |half| == 88 && half[..32] == a && half[32..64] == r && half[64..88] == t + d + b
            && half[64..72] == t && half[72..80] == d && half[80..88] == b
  {
    var half := a + (r + (t + d + b));
    assert half[32..] == r + (t + d + b);
    assert half[64..] == t + d + b;
  }

  lemma HalfAt(o: Bytes, base: nat, half: Bytes)
    requires |half| == 88 && base + 88 <= |o| && o[base..base + 88] == half
    ensures o[base..base + 32] == half[..32] && o[base + 32..base + 64] == half[32..64] && o[base + 64..base + 88] == half[64..88]
    ensures o[base + 64..base + 72] == half[64..72] && o[base + 72..base + 80] == half[72..80]
    ensures o[base + 80..base + 88] == half[80..88]
  {
    Nested(o, base, half, 0, 32);
    Nested(o, base, half, 32, 64);
    Nested(o, base, half, 64, 88);
    Nested(o, base, half, 64, 72);
    Nested(o, base, half, 72, 80);
    Nested(o, base, half, 80, 88);
  }

  lemma Nested(o: Bytes, base: nat, half: Bytes, lo: nat, hi: nat)
    requires |half| == 88 && base + 88 <= |o| && o[base..base + 88] == half && lo <= hi <= 88
    ensures o[base + lo..base + hi] == half[lo..hi]
  {
    forall k | lo <= k < hi
      ensures half[k] == o[base + k]
    {
      assert half[k] == o[base..base + 88][k];
    }
  }

  /** What an opening opens: recomputing a header's commitment from its slices gives the commitment that the lane proof and the
      payload check establish. */
  lemma HalfRecommits(h: Hashes, opening: Bytes, base: nat, headerSeq: Bytes, proof: LaneProof, expected: Option<Bytes>,
                      root: Digest, parent: Header, current: Header)
    requires |opening| == OPENING_BYTES && base + 88 <= OPENING_BYTES
    requires VerifyLaneProof(h, headerSeq, proof, expected).Ok?
    requires VerifyPayload(h, current, proof.payloadAndCtxDigest, root, parent).Ok?
    requires opening[base..base + 32] == VerifyLaneProof(h, headerSeq, proof, expected).value.activityRoot
    requires opening[base + 32..base + 64] == root
    requires opening[base + 64..base + 88] == Le(parent.timestamp, 8) + Le(current.daa, 8) + Le(current.blue, 8)
    ensures OpenSeq(h, opening, base, proof.parentSeqCommit) == headerSeq
  {
    hide LaneRoot, Le;
  }

  lemma AssembledParts(h: Hashes, boundary: int, g: Gathered, p: VerifiedLane, t: VerifiedLane)
    requires VerifyLaneProof(h, g.parent.seqCommit, g.parentLane, None) == Ok(p)
    requires VerifyLaneProof(h, g.target.seqCommit, g.targetLane, Some(g.parent.seqCommit)) == Ok(t)
    requires VerifyPayload(h, g.parent, p.payloadAndCtxDigest, g.parentRoot, g.parentOfParent).Ok?
    requires VerifyPayload(h, g.target, t.payloadAndCtxDigest, g.targetRoot, g.parent).Ok?
    requires |g.target.hash| == 32
    requires OpeningHalf(t.activityRoot, g.targetRoot, g.parent, g.target).Ok?
    requires OpeningHalf(p.activityRoot, g.parentRoot, g.parentOfParent, g.parent).Ok?
    ensures var o := g.target.hash + (OpeningHalf(t.activityRoot, g.targetRoot, g.parent, g.target).value
                     + (p.parentSeq + OpeningHalf(p.activityRoot, g.parentRoot, g.parentOfParent, g.parent).value));
            && |o| == OPENING_BYTES
            && o[..32] == g.target.hash && o[120..152] == p.parentSeq
            && OpenSeq(h, o, 152, p.parentSeq) == g.parent.seqCommit
            && OpenSeq(h, o, 32, g.parent.seqCommit) == g.target.seqCommit
            && o[96..104] == Le(g.parent.timestamp, 8) && o[104..112] == Le(g.target.daa, 8)
            && o[112..120] == Le(g.target.blue, 8) && o[216..224] == Le(g.parentOfParent.timestamp, 8)
            && o[224..232] == Le(g.parent.daa, 8) && o[232..240] == Le(g.parent.blue, 8)
  {
    hide LaneRoot, Le, OpenSeq, VerifyPayload, HeaderQuery, InnerQuery, ActivityQuery, Hash;
    var o := g.target.hash + (OpeningHalf(t.activityRoot, g.targetRoot, g.parent, g.target).value
             + (p.parentSeq + OpeningHalf(p.activityRoot, g.parentRoot, g.parentOfParent, g.parent).value));
    OpeningSlices(g.target.hash, t.activityRoot, g.targetRoot, Le(g.parent.timestamp, 8), Le(g.target.daa, 8),
                  Le(g.target.blue, 8), p.parentSeq, p.activityRoot, g.parentRoot, Le(g.parentOfParent.timestamp, 8),
                  Le(g.parent.daa, 8), Le(g.parent.blue, 8));
    HalfRecommits(h, o, 152, g.parent.seqCommit, g.parentLane, None, g.parentRoot, g.parentOfParent, g.parent);
    HalfRecommits(h, o, 32, g.target.seqCommit, g.targetLane, Some(g.parent.seqCommit), g.targetRoot, g.parent, g.target);
  }

  /** The last checks of the assembly are never the ones that fail: an opening made of verified parts always recommits to both
      headers. */
  lemma OpeningAlwaysRecommits(h: Hashes, boundary: int, g: Gathered)
    ensures Assemble(h, boundary, g).Err? ==> Assemble(h, boundary, g).code !in {P_OPENING_COMMITMENT, T_OPENING_COMMITMENT}
  {
    hide LaneRoot, Le, OpenSeq, VerifyPayload, VerifyLaneProof, OpeningHalf;
    LaneCodes(h, g.parent.seqCommit, g.parentLane, None);
    LaneCodes(h, g.target.seqCommit, g.targetLane, Some(g.parent.seqCommit));
    var p := VerifyLaneProof(h, g.parent.seqCommit, g.parentLane, None);
    var t := VerifyLaneProof(h, g.target.seqCommit, g.targetLane, Some(g.parent.seqCommit));
    if p.Ok? && t.Ok? {
      PayloadCodes(h, g.parent, p.value.payloadAndCtxDigest, g.parentRoot, g.parentOfParent);
      PayloadCodes(h, g.target, t.value.payloadAndCtxDigest, g.targetRoot, g.parent);
      HalfCodes(t.value.activityRoot, g.targetRoot, g.parent, g.target);
      HalfCodes(p.value.activityRoot, g.parentRoot, g.parentOfParent, g.parent);
      if VerifyPayload(h, g.parent, p.value.payloadAndCtxDigest, g.parentRoot, g.parentOfParent).Ok?
         && VerifyPayload(h, g.target, t.value.payloadAndCtxDigest, g.targetRoot, g.parent).Ok? && |g.target.hash| == 32
         && OpeningHalf(t.value.activityRoot, g.targetRoot, g.parent, g.target).Ok?
         && OpeningHalf(p.value.activityRoot, g.parentRoot, g.parentOfParent, g.parent).Ok? {
        AssembledParts(h, boundary, g, p.value, t.value);
      }
    }
  }

  lemma LaneCodes(h: Hashes, headerSeq: Bytes, proof: LaneProof, expected: Option<Bytes>)
    ensures VerifyLaneProof(h, headerSeq, proof, expected).Err? ==>
              VerifyLaneProof(h, headerSeq, proof, expected).code !in {P_OPENING_COMMITMENT, T_OPENING_COMMITMENT}
    ensures VerifyLaneProof(h, headerSeq, proof, expected).Ok? ==>
              |VerifyLaneProof(h, headerSeq, proof, expected).value.parentSeq| == 32
  {
    hide AtDepth, SplitSiblings;
  }

  lemma PayloadCodes(h: Hashes, current: Header, digest: Bytes, root: Digest, parent: Header)
    ensures VerifyPayload(h, current, digest, root, parent).Err? ==>
              VerifyPayload(h, current, digest, root, parent).code !in {P_OPENING_COMMITMENT, T_OPENING_COMMITMENT}
  {
  }

  lemma HalfCodes(activity: Digest, root: Digest, parent: Header, current: Header)
    ensures OpeningHalf(activity, root, parent, current).Err? ==>
              OpeningHalf(activity, root, parent, current).code !in {P_OPENING_COMMITMENT, T_OPENING_COMMITMENT}
  {
  }

  /** An assembled opening authenticates: when the SEALED snapshot has reached its boundary and the target lies below the DAA
      limit, the client's draw accepts it against the target's own header commitment. */
  lemma AssembledAuthenticates(h: Hashes, x: P.Snapshot, s: Ledger, g: Gathered)
    requires Decodable(s) && s.phase == SEALED && x.tip.index >= 0
    requires 0 <= x.utxoDaa < DAA_LIMIT - TIMEOUT_DELAY && x.currentDaa >= x.utxoDaa + DRAW_DELAY
    requires Assemble(h, x.utxoDaa + DRAW_DELAY, g).Ok? && g.target.daa < DAA_LIMIT
    ensures var opening := Assemble(h, x.utxoDaa + DRAW_DELAY, g).value;
            var draw := P.AuthenticateDraw(h, x, s, opening, P.Accessor(g.target.hash, g.target.seqCommit));
            && draw.Ok?
            && draw.value.targetHash == g.target.hash && draw.value.targetSeq == g.target.seqCommit
            && draw.value.boundaryDaa == x.utxoDaa + DRAW_DELAY
  {
    hide LaneRoot, Le, FromLe, OpenSeq, VerifyPayload, VerifyLaneProof, LedgerBytes, Seed;
    var p := VerifyLaneProof(h, g.parent.seqCommit, g.parentLane, None).value;
    var t := VerifyLaneProof(h, g.target.seqCommit, g.targetLane, Some(g.parent.seqCommit)).value;
    AssembledParts(h, x.utxoDaa + DRAW_DELAY, g, p, t);
    Numbers(g.parent.timestamp);
    Numbers(g.target.daa);
    Numbers(g.target.blue);
    Numbers(g.parentOfParent.timestamp);
    Numbers(g.parent.daa);
    Numbers(g.parent.blue);
    LedgerSlices(s);
  }

  lemma Numbers(n: int)
    requires U63(n).Ok?
    ensures FromLe(Le(n, 8)) == n
  {
    Pow256Values();
    FromLeOfLe(n, 8);
  }

  /** An opening is assembled only of three consecutive headers around the boundary, each naming the one before it as its selected
      parent and committing to that one's sequence commitment. */
  lemma AssembledLinks(h: Hashes, boundary: int, g: Gathered)
    requires Assemble(h, boundary, g).Ok?
    ensures g.parent.daa < boundary <= g.target.daa && g.parent.blue < g.target.blue
    ensures g.target.selectedParent == g.parent.hash && g.parent.selectedParent == g.parentOfParent.hash
    ensures g.parentLane.parentSeqCommit == g.parentOfParent.seqCommit && g.targetLane.parentSeqCommit == g.parent.seqCommit
  {
    hide LaneRoot, OpenSeq, ContextQuery, Hash, OpeningHalf;
  }
}
