/** Domain-separated hash queries, and what it means that none of a list of them collide. */
module Hashing {
  import opened Bytes
  import opened Scripts

  datatype Query = Query(domain: Domain, input: Bytes)

  function Hash(h: Hashes, q: Query): Digest {
    h.domain(q.domain, q.input)
  }

  /** No two different queries of the list have one digest, and none has the zero digest. */
  predicate CollisionFree(h: Hashes, qs: seq<Query>) {
    && (forall i, j | 0 <= i < |qs| && 0 <= j < |qs| :: Hash(h, qs[i]) == Hash(h, qs[j]) ==> qs[i] == qs[j])
    && (forall i | 0 <= i < |qs| :: Hash(h, qs[i]) != ZERO)
  }

  predicate Among(q: Query, qs: seq<Query>) {
    exists i | 0 <= i < |qs| :: qs[i] == q
  }

  lemma NoCollision(h: Hashes, qs: seq<Query>, a: Query, b: Query)
    requires CollisionFree(h, qs) && Among(a, qs) && Among(b, qs)
    ensures Hash(h, a) == Hash(h, b) ==> a == b
    ensures Hash(h, a) != ZERO
  {
  }

  lemma AmongParts(q: Query, a: seq<Query>, b: seq<Query>)
    ensures Among(q, a + b) <==> Among(q, a) || Among(q, b)
  {
    if i :| 0 <= i < |a + b| && (a + b)[i] == q {
      assert i < |a| ==> a[i] == q;
      assert i >= |a| ==> b[i - |a|] == q;
    }
    if i :| 0 <= i < |a| && a[i] == q {
      assert (a + b)[i] == q;
    }
    if i :| 0 <= i < |b| && b[i] == q {
      assert (a + b)[|a| + i] == q;
    }
  }
}
