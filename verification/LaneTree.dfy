/** Lane proofs are complete: the sparse Merkle tree of a set of lanes, and the proofs that an honest node cuts out of it
    (scripts/core/src/pass-a.ts:81-114). */
module LaneTree {
  import opened Division
  import opened Results
  import opened Bytes
  import opened Scripts
  import opened Hashing
  import opened Lanes

  // ---------------------------------------------------------------- keys as numbers

  /** A byte string as a big-endian number. */
  function FromBe(b: Bytes): nat {
    if b == [] then 0 else FromBe(b[..|b| - 1]) * 256 + b[|b| - 1]
  }

  /** The number of the first `d` of a key's 256 bits. */
  function Prefix(key: Bytes, d: nat): nat
    requires d <= 256
  {
    hide FromBe, Pow2;
    FromBe(key) / Pow2(256 - d)
  }

  // ---------------------------------------------------------------- the tree

  type LaneMap = map<Bytes, Lane>

  predicate WellKeyed(m: LaneMap) {
    forall k | k in m :: |k| == 32 && |m[k].tip| == 32 && 0 <= m[k].blueScore < 0x8000_0000_0000_0000
  }

  /** The key lies in the subtree at depth `d` whose keys begin with the bits of `prefix`. */
  predicate Under(key: Bytes, d: nat, prefix: nat)
    requires d <= 256
  {
    Prefix(key, d) == prefix
  }

  /** `k` is the one lane of the subtree. */
  ghost predicate Only(m: LaneMap, d: nat, prefix: nat, k: Bytes)
    requires d <= 256
  {
    k in m && Under(k, d, prefix) && forall j | j in m && Under(j, d, prefix) :: j == k
  }

  ghost predicate Alone(m: LaneMap, d: nat, prefix: nat)
    requires d <= 256
  {
    exists k :: Only(m, d, prefix, k)
  }

  ghost predicate Vacant(m: LaneMap, d: nat, prefix: nat)
    requires d <= 256
  {
    forall k | k in m :: !Under(k, d, prefix)
  }

  /** The digest of a subtree: a single lane collapses to its key and leaf, at whatever depth; everything else is a node over the
      keys that go on with 0, on the left, and with 1, on the right, down to the empty leaf. */
  ghost function SubRoot(h: Hashes, m: LaneMap, d: nat, prefix: nat): Digest
    requires d <= 256 && WellKeyed(m)
    decreases 256 - d
  {
    if Alone(m, d, prefix) then
      var k :| Only(m, d, prefix, k);
      Hash(h, Query(COLLAPSED_NODE, k + Hash(h, Query(ACTIVE_LEAF, m[k].tip + Le(m[k].blueScore, 8)))))
    else if d == 256 then ZERO
    else Hash(h, Query(ACTIVE_NODE, SubRoot(h, m, d + 1, 2 * prefix) + SubRoot(h, m, d + 1, 2 * prefix + 1)))
  }

  ghost function TreeRoot(h: Hashes, m: LaneMap): Digest
    requires WellKeyed(m)
  {
    SubRoot(h, m, 0, 0)
  }

  // ---------------------------------------------------------------- honest proofs

  /** The subtree beside the path at depth `d`. */
  function Beside(key: Bytes, d: nat): nat
    requires d < 256
  {
    if Prefix(key, d + 1) % 2 == 0 then Prefix(key, d + 1) + 1 else Prefix(key, d + 1) - 1
  }

  /** Where the path to `key` meets a subtree of at most one lane. */
  ghost function EndFrom(m: LaneMap, key: Bytes, d: nat): (t: nat)
    requires d <= 256
    ensures d <= t <= 256
    ensures forall i | d <= i < t :: !Alone(m, i, Prefix(key, i)) && !Vacant(m, i, Prefix(key, i))
    ensures t < 256 ==> Alone(m, t, Prefix(key, t)) || Vacant(m, t, Prefix(key, t))
    decreases 256 - d
  {
    if d == 256 || Alone(m, d, Prefix(key, d)) || Vacant(m, d, Prefix(key, d)) then d else EndFrom(m, key, d + 1)
  }

  /** The siblings that are not empty, from the root down. */
  ghost function Siblings(h: Hashes, m: LaneMap, key: Bytes, n: nat): (ss: seq<Bytes>)
    requires n <= 256 && WellKeyed(m)
    ensures forall i | 0 <= i < |ss| :: |ss[i]| == 32
  {
    if n == 0 then []
    else
      Siblings(h, m, key, n - 1)
      + if Vacant(m, n, Beside(key, n - 1)) then [] else [SubRoot(h, m, n, Beside(key, n - 1))]
  }

  /** The number whose bits, least significant first, are given. */
  function Packed(bits: seq<bool>): nat {
    if bits == [] then 0 else (if bits[0] then 1 else 0) + 2 * Packed(bits[1..])
  }

  lemma {:induction false} PackedBound(bits: seq<bool>)
    ensures Packed(bits) < Pow2(|bits|)
  {
    if bits != [] {
      PackedBound(bits[1..]);
    }
  }

  function PackedByte(bits: seq<bool>): Byte
    requires |bits| == 8
  {
    PackedBound(bits);
    EightBits();
    Packed(bits)
  }

  lemma EightBits()
    ensures Pow2(8) == 256
  {
    assert Pow2(4) == 16;
  }

  ghost function VacantBits(m: LaneMap, key: Bytes, i: nat): (bits: seq<bool>)
    requires i < 32
    ensures |bits| == 8
  {
    seq(8, j requires 0 <= j < 8 => Vacant(m, 8 * i + j + 1, Beside(key, 8 * i + j)))
  }

  /** One bit for each depth, set where the sibling is empty. */
  ghost function Bitmap(m: LaneMap, key: Bytes): (b: Bytes)
    ensures |b| == 32
  {
    seq(32, i requires 0 <= i < 32 => PackedByte(VacantBits(m, key, i)))
  }

  /** The proof that an honest node gives for `key`: with the lane, or with the one foreign lane that it ends at, or all the way
      down through an empty subtree. */
  ghost function Honest(h: Hashes, m: LaneMap, key: Bytes): SmtProof
    requires WellKeyed(m)
  {
    var t := EndFrom(m, key, 0);
    if Vacant(m, t, Prefix(key, t)) || !Alone(m, t, Prefix(key, t)) then
      SmtProof(Bitmap(m, key), 256, None, Siblings(h, m, key, 256))
    else
      var k :| Only(m, t, Prefix(key, t), k);
      SmtProof(Bitmap(m, key), t,
               if k == key then None
               else Some((k, Hash(h, Query(ACTIVE_LEAF, m[k].tip + Le(m[k].blueScore, 8))))),
               Siblings(h, m, key, t))
  }

  // ---------------------------------------------------------------- proofs as bytes

  function Joined(ss: seq<Bytes>): Bytes {
    if ss == [] then [] else Joined(ss[..|ss| - 1]) + ss[|ss| - 1]
  }

  /** A proof's bytes: bitmap, tag, depth unless the path goes all the way, foreign lane, siblings. */
  function ProofBytes(p: SmtProof, inclusion: bool): Bytes
    requires WellFormed(p) && (p.depth < 256 || p.foreign == None)
  {
    p.bitmap
    + (if p.foreign.Some? then [2, p.depth as Byte] + p.foreign.value.0 + p.foreign.value.1
       else if inclusion && p.depth < 256 then [1, p.depth as Byte]
       else [0])
    + Joined(p.siblings)
  }

  lemma {:induction false} JoinedLength(ss: seq<Bytes>)
    requires forall i | 0 <= i < |ss| :: |ss[i]| == 32
    ensures |Joined(ss)| == 32 * |ss|
  {
    if ss != [] {
      JoinedLength(ss[..|ss| - 1]);
    }
  }

  lemma {:induction false} SplitJoined(head: Bytes, ss: seq<Bytes>)
    requires forall i | 0 <= i < |ss| :: |ss[i]| == 32
    ensures |head + Joined(ss)| == |head| + 32 * |ss|
    ensures SplitSiblings(head + Joined(ss), |head|, |ss|) == ss
  {
    JoinedLength(ss);
    if ss == [] {
    } else {
      var n := |ss| - 1;
      SplitJoined(head, ss[..n]);
      JoinedLength(ss[..n]);
      var raw, less := head + Joined(ss), head + Joined(ss[..n]);
      assert raw == less + ss[n];
      forall i | 0 <= i < |ss|
        ensures SplitSiblings(raw, |head|, |ss|)[i] == ss[i]
      {
        if i < n {
          assert SplitSiblings(less, |head|, n)[i] == ss[i];
          assert raw[|head| + 32 * i..|head| + 32 * i + 32] == less[|head| + 32 * i..|head| + 32 * i + 32];
        } else {
          assert raw[|head| + 32 * n..|head| + 32 * n + 32] == ss[n];
        }
      }
    }
  }

  lemma {:induction false} CarriedBound(bitmap: Bytes, n: nat)
    requires |bitmap| == 32 && n <= 256
    ensures Carried(bitmap, n) <= n
  {
    if n > 0 {
      CarriedBound(bitmap, n - 1);
    }
  }

  /** Proofs read back from their bytes. */
  lemma ProofReads(p: SmtProof, inclusion: bool)
    requires WellFormed(p) && (inclusion ==> p.foreign == None) && (p.foreign.Some? ==> p.depth < 256)
    requires !inclusion && p.foreign == None ==> p.depth == 256
    ensures ParseProof(ProofBytes(p, inclusion), inclusion) == Ok(p)
  {
    hide Carried, SplitSiblings, Joined;
    var mid: Bytes := if p.foreign.Some? then [2, p.depth as Byte] + p.foreign.value.0 + p.foreign.value.1
                      else if inclusion && p.depth < 256 then [1, p.depth as Byte] else [0];
    var head, raw := p.bitmap + mid, ProofBytes(p, inclusion);
    assert raw == head + Joined(p.siblings);
    SplitJoined(head, p.siblings);
    CarriedBound(p.bitmap, p.depth);
    assert raw[..32] == p.bitmap && raw[32] == mid[0];
    if p.foreign.Some? {
      assert raw[33] == p.depth && raw[34..66] == p.foreign.value.0 && raw[66..98] == p.foreign.value.1;
    } else if inclusion && p.depth < 256 {
      assert raw[33] == p.depth;
    }
  }

  // ---------------------------------------------------------------- bits of keys

  /** Dividing by twice a number is dividing by it and then by two. */
  lemma HalfQuotient(x: nat, d: nat)
    requires d > 0
    ensures x / (2 * d) == x / d / 2
  {
    var q, r := x / d, x % d;
    assert q == 2 * (q / 2) + q % 2;
    Halves(d, q / 2, q % 2);
    assert 0 <= d * (q % 2) <= d by { Unit(d, q % 2); }
    QuotientIs(x, 2 * d, q / 2, d * (q % 2) + r);
  }

  lemma Halves(d: nat, c: nat, b: nat)
    ensures d * (2 * c + b) == 2 * d * c + d * b
  {
  }

  lemma Unit(d: nat, b: nat)
    requires b < 2
    ensures d * b == if b == 0 then 0 else d
  {
  }

  lemma QuotientIs(x: nat, d: nat, q: nat, r: nat)
    requires r < d && x == d * q + r
    ensures x / d == q && x % d == r
  {
    assert x == (x / d) * d + x % d;
    assert q * d == d * q;
    SameQuotient(q, r, x / d, x % d, d);
  }

  /** Each prefix is the one before with one more bit. */
  lemma PrefixStep(key: Bytes, d: nat)
    requires d < 256
    ensures Prefix(key, d) == Prefix(key, d + 1) / 2
  {
    HalfQuotient(FromBe(key), Pow2(255 - d));
  }

  lemma {:induction false} ShiftMore(x: nat, m: nat, r: nat)
    ensures x / Pow2(m + r) == x / Pow2(m) / Pow2(r)
  {
    hide Pow2;
    if r == 0 {
      ByNothing(x / Pow2(m));
    } else {
      ShiftMore(x, m, r - 1);
      HalvedAgain(x, m + r - 1);
      HalvedAgain(x / Pow2(m), r - 1);
    }
  }

  lemma ByNothing(q: nat)
    ensures q / Pow2(0) == q
  {
  }

  lemma HalvedAgain(x: nat, k: nat)
    ensures x / Pow2(k + 1) == x / Pow2(k) / 2
  {
    HalfQuotient(x, Pow2(k));
  }

  lemma {:induction false} FromBeBound(b: Bytes)
    ensures FromBe(b) < Pow2(8 * |b|)
  {
    if b != [] {
      var n := |b| - 1;
      FromBeBound(b[..n]);
      EightMore(8 * n);
    }
  }

  lemma EightMore(m: nat)
    ensures Pow2(m + 8) == 256 * Pow2(m)
  {
    TwoMore(m);
    TwoMore(m + 2);
    TwoMore(m + 4);
    TwoMore(m + 6);
  }

  lemma TwoMore(m: nat)
    ensures Pow2(m + 2) == 4 * Pow2(m)
  {
  }

  lemma {:induction false} FromBeConcat(a: Bytes, b: Bytes)
    ensures FromBe(a + b) == FromBe(a) * Pow2(8 * |b|) + FromBe(b)
  {
    hide FromBe, Pow2;
    if b == [] {
      assert a + b == a;
      NoBytes(a);
    } else {
      var n := |b| - 1;
      assert a + b == (a + b[..n]) + [b[n]] && b == b[..n] + [b[n]];
      FromBeConcat(a, b[..n]);
      OneMoreByte(a + b[..n], b[n]);
      OneMoreByte(b[..n], b[n]);
      EightMore(8 * n);
      assert 8 * |b| == 8 * n + 8;
      Regroup(FromBe(a), Pow2(8 * n));
    }
  }

  lemma NoBytes(a: Bytes)
    ensures FromBe([]) == 0 && FromBe(a) * Pow2(0) == FromBe(a)
  {
  }

  lemma Regroup(a: nat, p: nat)
    ensures a * p * 256 == a * (256 * p)
  {
  }

  lemma Halving(k: nat, c: nat)
    ensures (2 * k + c) / 2 == k + c / 2 && (2 * k + c) % 2 == c % 2
  {
  }

  /** Adding a multiple of a higher power leaves a bit alone. */
  lemma {:induction false} LowBit(u: nat, b: nat, r: nat)
    ensures (Pow2(r + 1) * u + b) / Pow2(r) % 2 == b / Pow2(r) % 2
  {
    if r == 0 {
      assert Pow2(0) == 1 && Pow2(1) == 2;
      Halving(u, b);
    } else {
      var k := Pow2(r) * u;
      Double(Pow2(r), u);
      Halving(k, b);
      LowBit(u, b / 2, r - 1);
      HalfQuotient(2 * k + b, Pow2(r - 1));
      HalfFirst(2 * k + b, Pow2(r - 1));
      HalfQuotient(b, Pow2(r - 1));
      HalfFirst(b, Pow2(r - 1));
    }
  }

  lemma Double(p: nat, u: nat)
    ensures 2 * p * u == 2 * (p * u)
  {
  }

  /** The low bits of a number's quotients by small powers are those of its last byte. */
  lemma LowByte(u: nat, b: Byte, r: nat)
    requires r < 8
    ensures (256 * u + b) / Pow2(r) % 2 == b / Pow2(r) % 2
  {
    hide Pow2;
    PowersOf256(r);
    Associate(Pow2(r + 1), Pow2(7 - r), u);
    LowBit(Pow2(7 - r) * u, b, r);
  }

  lemma PowersOf256(r: nat)
    requires r < 8
    ensures Pow2(r + 1) * Pow2(7 - r) == 256
  {
    SmallPowers();
    EightBits();
  }

  lemma Associate(p: nat, q: nat, u: nat)
    ensures p * (q * u) == p * q * u
  {
  }

  lemma SmallPowers()
    ensures Pow2(0) == 1 && Pow2(1) == 2 && Pow2(2) == 4 && Pow2(3) == 8 && Pow2(4) == 16 && Pow2(5) == 32 && Pow2(6) == 64
    ensures Pow2(7) == 128
  {
    assert Pow2(2) == 4;
    assert Pow2(4) == 16;
    assert Pow2(6) == 64;
  }

  /** The path turns right where the key's number has a 1. */
  lemma TurnIsBit(key: Bytes, d: nat)
    requires |key| == 32 && d < 256
    ensures TurnsRight(key, d) <==> Prefix(key, d + 1) % 2 == 1
  {
    hide FromBe, Pow2;
    var i, j := d / 8, d % 8;
    var head, tail := key[..i], key[i + 1..];
    assert key == head + [key[i]] + tail;
    FromBeConcat(head + [key[i]], tail);
    FromBeBound(tail);
    OneMoreByte(head, key[i]);
    var y := FromBe(head + [key[i]]);
    QuotientIs(FromBe(key), Pow2(8 * |tail|), y, FromBe(tail)) by {
      assert y * Pow2(8 * |tail|) == Pow2(8 * |tail|) * y;
    }
    assert 256 - (d + 1) == 8 * |tail| + (7 - j);
    ShiftMore(FromBe(key), 8 * |tail|, 7 - j);
    LowByte(FromBe(head), key[i], 7 - j);
  }

  lemma OneMoreByte(head: Bytes, b: Byte)
    ensures FromBe(head + [b]) == 256 * FromBe(head) + b
  {
    assert (head + [b])[..|head|] == head;
  }

  lemma {:induction false} FromBeInjective(a: Bytes, b: Bytes)
    requires |a| == |b| && FromBe(a) == FromBe(b)
    ensures a == b
  {
    if a != [] {
      var n := |a| - 1;
      FromBeInjective(a[..n], b[..n]);
      assert a == a[..n] + [a[n]] && b == b[..n] + [b[n]];
    }
  }

  lemma {:induction false} PackedBit(bits: seq<bool>, k: nat)
    requires k < |bits|
    ensures Packed(bits) / Pow2(k) % 2 == 1 <==> bits[k]
  {
    hide Packed, Pow2;
    PackedHalf(bits);
    if k == 0 {
      ByNothing(Packed(bits));
    } else {
      PackedBit(bits[1..], k - 1);
      HalvedFirst(Packed(bits), k - 1);
    }
  }

  lemma PackedHalf(bits: seq<bool>)
    requires bits != []
    ensures Packed(bits) / 2 == Packed(bits[1..]) && (Packed(bits) % 2 == 1 <==> bits[0])
  {
  }

  lemma HalvedFirst(x: nat, k: nat)
    ensures x / Pow2(k + 1) == x / 2 / Pow2(k)
  {
    HalfQuotient(x, Pow2(k));
    HalfFirst(x, Pow2(k));
  }

  lemma HalfFirst(x: nat, d: nat)
    requires d > 0
    ensures x / d / 2 == x / 2 / d
  {
    HalfQuotient(x, d);
    var q, r := x / 2, x % 2;
    var u, v := q / d, q % d;
    assert q == d * u + v;
    QuotientIs(x, 2 * d, u, 2 * v + r) by {
      assert 2 * (d * u) == 2 * d * u;
    }
  }

  // ---------------------------------------------------------------- subtrees along the path

  /** The path and its sibling are the two halves of the subtree above. */
  lemma Children(key: Bytes, d: nat)
    requires d < 256
    ensures var p, q := Prefix(key, d), Prefix(key, d + 1);
            if q % 2 == 0 then q == 2 * p && Beside(key, d) == 2 * p + 1 else q == 2 * p + 1 && Beside(key, d) == 2 * p
  {
    hide Prefix;
    PrefixStep(key, d);
  }

  lemma UnderHalves(key: Bytes, d: nat, prefix: nat)
    requires d < 256
    ensures Under(key, d, prefix) <==> Under(key, d + 1, 2 * prefix) || Under(key, d + 1, 2 * prefix + 1)
  {
    hide Prefix;
    PrefixStep(key, d);
  }

  lemma VacantHalves(m: LaneMap, d: nat, prefix: nat)
    requires d < 256 && Vacant(m, d, prefix)
    ensures Vacant(m, d + 1, 2 * prefix) && Vacant(m, d + 1, 2 * prefix + 1)
  {
    hide Under;
    forall k | k in m
      ensures !Under(k, d + 1, 2 * prefix) && !Under(k, d + 1, 2 * prefix + 1)
    {
      UnderHalves(k, d, prefix);
    }
  }

  /** An empty subtree has the empty digest of its height. */
  lemma {:induction false} VacantRoot(h: Hashes, m: LaneMap, d: nat, prefix: nat)
    requires d <= 256 && WellKeyed(m) && Vacant(m, d, prefix)
    ensures !Alone(m, d, prefix) && SubRoot(h, m, d, prefix) == Empty(h, 256 - d)
    decreases 256 - d
  {
    hide Under, WellKeyed, SubRoot, Empty, Alone, Vacant;
    NotAlone(m, d, prefix);
    if d < 256 {
      VacantHalves(m, d, prefix);
      VacantRoot(h, m, d + 1, 2 * prefix);
      VacantRoot(h, m, d + 1, 2 * prefix + 1);
      RootStep(h, m, d, prefix);
      EmptyStep(h, 256 - d);
    } else {
      BottomRoot(h, m, prefix);
    }
  }

  lemma NotAlone(m: LaneMap, d: nat, prefix: nat)
    requires d <= 256 && Vacant(m, d, prefix)
    ensures !Alone(m, d, prefix)
  {
    hide Under;
  }

  lemma EmptyStep(h: Hashes, i: nat)
    requires i > 0
    ensures Empty(h, i) == Hash(h, Query(ACTIVE_NODE, Empty(h, i - 1) + Empty(h, i - 1)))
  {
  }

  lemma BottomRoot(h: Hashes, m: LaneMap, prefix: nat)
    requires WellKeyed(m) && !Alone(m, 256, prefix)
    ensures SubRoot(h, m, 256, prefix) == ZERO && Empty(h, 0) == ZERO
  {
    hide WellKeyed, Alone;
  }

  lemma {:induction false} VacantBelow(m: LaneMap, key: Bytes, t: nat, d: nat)
    requires t <= d <= 256 && Vacant(m, t, Prefix(key, t))
    ensures Vacant(m, d, Prefix(key, d))
  {
    hide Under, Prefix;
    if t < d {
      VacantBelow(m, key, t, d - 1);
      VacantHalves(m, d - 1, Prefix(key, d - 1));
      Children(key, d - 1);
    }
  }

  lemma BitmapBit(m: LaneMap, key: Bytes, d: nat)
    requires d < 256
    ensures Missing(Bitmap(m, key), d) <==> Vacant(m, d + 1, Beside(key, d))
  {
    hide Vacant, Beside, Packed;
    var i, j := d / 8, d % 8;
    var bits := VacantBits(m, key, i);
    PackedBit(bits, j);
    assert bits[j] == Vacant(m, 8 * i + j + 1, Beside(key, 8 * i + j));
    assert d == 8 * i + j;
  }

  lemma {:induction false} SiblingsCount(h: Hashes, m: LaneMap, key: Bytes, n: nat)
    requires n <= 256 && WellKeyed(m)
    ensures |Siblings(h, m, key, n)| == Carried(Bitmap(m, key), n)
  {
    hide Vacant, Beside, Missing, Bitmap, SubRoot, WellKeyed;
    if n > 0 {
      SiblingsCount(h, m, key, n - 1);
      BitmapBit(m, key, n - 1);
    }
  }

  lemma {:induction false} SiblingIs(h: Hashes, m: LaneMap, key: Bytes, d: nat, n: nat)
    requires d < n <= 256 && WellKeyed(m) && !Missing(Bitmap(m, key), d)
    ensures Carried(Bitmap(m, key), d) < |Siblings(h, m, key, n)|
    ensures Siblings(h, m, key, n)[Carried(Bitmap(m, key), d)] == SubRoot(h, m, d + 1, Beside(key, d))
  {
    hide Vacant, Beside, Missing, Bitmap, SubRoot, WellKeyed, Carried;
    if d < n - 1 {
      SiblingIs(h, m, key, d, n - 1);
    } else {
      SiblingsCount(h, m, key, d);
      BitmapBit(m, key, d);
    }
  }

  lemma HonestIsFormed(h: Hashes, m: LaneMap, key: Bytes)
    requires WellKeyed(m)
    ensures WellFormed(Honest(h, m, key))
  {
    hide Siblings, Bitmap, Carried, Prefix, EndFrom, Vacant, Under;
    SiblingsCount(h, m, key, 256);
    SiblingsCount(h, m, key, EndFrom(m, key, 0));
  }

  /** The sibling that the climb uses is the subtree beside the path. */
  lemma SiblingRoot(h: Hashes, m: LaneMap, key: Bytes, d: nat)
    requires WellKeyed(m) && WellFormed(Honest(h, m, key)) && d < Honest(h, m, key).depth
    ensures SiblingAt(h, Honest(h, m, key), d) == SubRoot(h, m, d + 1, Beside(key, d))
  {
    hide Bitmap, Carried, Prefix, EndFrom, Under, Siblings, Empty, SubRoot, Beside, WellKeyed, Missing;
    BitmapBit(m, key, d);
    if Missing(Bitmap(m, key), d) {
      VacantRoot(h, m, d + 1, Beside(key, d));
    } else {
      SiblingIs(h, m, key, d, Honest(h, m, key).depth);
    }
  }

  // ---------------------------------------------------------------- where the path ends

  /** At the last depth a subtree has no two lanes. */
  lemma LastDepth(m: LaneMap, key: Bytes)
    requires WellKeyed(m) && |key| == 32
    ensures key in m ==> Only(m, 256, Prefix(key, 256), key)
    ensures key !in m ==> Vacant(m, 256, Prefix(key, 256))
  {
    forall k | k in m && Under(k, 256, Prefix(key, 256))
      ensures k == key
    {
      WholeNumber(k);
      WholeNumber(key);
      FromBeInjective(k, key);
    }
  }

  lemma WholeNumber(key: Bytes)
    ensures Prefix(key, 256) == FromBe(key)
  {
    assert Pow2(0) == 1;
  }

  /** The path ends at an empty subtree, at the lane itself, or at one foreign lane. */
  lemma PathEnd(h: Hashes, m: LaneMap, key: Bytes)
    requires WellKeyed(m) && |key| == 32
    ensures var t, p := EndFrom(m, key, 0), Honest(h, m, key);
            if Vacant(m, t, Prefix(key, t)) then p.depth == 256 && p.foreign == None && key !in m
            else
              && p.depth == t && Alone(m, t, Prefix(key, t))
              && (key in m ==> p.foreign == None && Only(m, t, Prefix(key, t), key))
              && (key !in m ==>
                    && p.foreign.Some? && t < 256
                    && Only(m, t, Prefix(key, t), p.foreign.value.0) && p.foreign.value.0 != key
                    && p.foreign.value.1 == Hash(h, LeafQuery(m[p.foreign.value.0])))
  {
    hide Bitmap, Siblings, Prefix;
    LastDepth(m, key);
    assert Under(key, EndFrom(m, key, 0), Prefix(key, EndFrom(m, key, 0)));
  }

  lemma OnlyRoot(h: Hashes, m: LaneMap, d: nat, prefix: nat, k: Bytes)
    requires d <= 256 && WellKeyed(m) && Only(m, d, prefix, k)
    ensures SubRoot(h, m, d, prefix) == Hash(h, Query(COLLAPSED_NODE, k + Hash(h, LeafQuery(m[k]))))
  {
    hide Under;
  }

  function LaneOf(m: LaneMap, key: Bytes): Option<Lane> {
    if key in m then Some(m[key]) else None
  }

  /** The climb starts from the subtree that the path ends at. */
  lemma SeedRoot(h: Hashes, m: LaneMap, key: Bytes)
    requires WellKeyed(m) && |key| == 32
    ensures var p := Honest(h, m, key);
            && p.depth <= 256
            && SeedOf(h, p, key, LaneOf(m, key)) == SubRoot(h, m, p.depth, Prefix(key, p.depth))
            && forall d | 0 <= d < p.depth :: !Alone(m, d, Prefix(key, d))
  {
    hide Honest, EndFrom, Prefix, SubRoot, Empty, Under, Only, Vacant, Alone;
    PathEnd(h, m, key);
    var t, p := EndFrom(m, key, 0), Honest(h, m, key);
    if Vacant(m, t, Prefix(key, t)) {
      forall d | t <= d <= 256
        ensures !Alone(m, d, Prefix(key, d))
      {
        VacantBelow(m, key, t, d);
        VacantRoot(h, m, d, Prefix(key, d));
      }
      VacantBelow(m, key, t, 256);
      VacantRoot(h, m, 256, Prefix(key, 256));
      NoneEmpty(h);
    } else if key in m {
      OnlyRoot(h, m, t, Prefix(key, t), key);
    } else {
      OnlyRoot(h, m, t, Prefix(key, t), p.foreign.value.0);
    }
  }

  lemma NoneEmpty(h: Hashes)
    ensures Empty(h, 0) == ZERO
  {
  }

  // ---------------------------------------------------------------- completeness

  lemma {:induction false} ClimbRoot(h: Hashes, m: LaneMap, key: Bytes, d: nat)
    requires WellKeyed(m) && |key| == 32 && WellFormed(Honest(h, m, key)) && d <= Honest(h, m, key).depth
    ensures var p := Honest(h, m, key);
            AtDepth(h, p, key, SeedOf(h, p, key, LaneOf(m, key)), d) == SubRoot(h, m, d, Prefix(key, d))
    decreases Honest(h, m, key).depth - d
  {
    hide Honest, Prefix, Empty, Under, Only, Vacant, Alone, SeedOf, TurnsRight, SiblingAt, WellFormed, AtDepth, SubRoot;
    var p := Honest(h, m, key);
    SeedRoot(h, m, key);
    ClimbStep(h, p, key, SeedOf(h, p, key, LaneOf(m, key)), d);
    if d < p.depth {
      ClimbRoot(h, m, key, d + 1);
      SiblingRoot(h, m, key, d);
      TurnIsBit(key, d);
      Children(key, d);
      RootStep(h, m, d, Prefix(key, d));
    }
  }

  lemma ClimbStep(h: Hashes, p: SmtProof, key: Bytes, seed: Digest, d: nat)
    requires WellFormed(p) && d <= p.depth && |key| == 32
    ensures AtDepth(h, p, key, seed, d)
         == if d == p.depth then seed
            else var below := AtDepth(h, p, key, seed, d + 1);
                 Hash(h, Query(ACTIVE_NODE, if TurnsRight(key, d) then SiblingAt(h, p, d) + below else below + SiblingAt(h, p, d)))
  {
    hide SiblingAt, TurnsRight, WellFormed;
  }

  lemma RootStep(h: Hashes, m: LaneMap, d: nat, prefix: nat)
    requires d < 256 && WellKeyed(m) && !Alone(m, d, prefix)
    ensures SubRoot(h, m, d, prefix)
         == Hash(h, Query(ACTIVE_NODE, SubRoot(h, m, d + 1, 2 * prefix) + SubRoot(h, m, d + 1, 2 * prefix + 1)))
  {
    hide Alone, WellKeyed;
  }

  /** Honest proofs verify: for every set of lanes and every key, the bytes that the node gives for the key compute the root of
      the tree, whether the lane is there or not. */
  lemma HonestProofVerifies(h: Hashes, m: LaneMap, key: Bytes)
    requires WellKeyed(m) && |key| == 32
    ensures var p := Honest(h, m, key);
            && WellFormed(p) && (p.depth < 256 || p.foreign == None)
            && LaneRoot(h, ProofBytes(p, key in m), key, LaneOf(m, key)) == Ok(TreeRoot(h, m))
  {
    hide Honest, ProofBytes, ParseProof, Prefix, AtDepth, SeedOf, SubRoot, Only, Under, Vacant, Alone, EndFrom, WellFormed;
    HonestIsFormed(h, m, key);
    PathEnd(h, m, key);
    ProofReads(Honest(h, m, key), key in m);
    ClimbRoot(h, m, key, 0);
    RootPrefix(key);
  }

  lemma RootPrefix(key: Bytes)
    requires |key| == 32
    ensures Prefix(key, 0) == 0
  {
    FromBeBound(key);
    QuotientIs(FromBe(key), Pow2(256), 0, FromBe(key));
  }

  /** The commitment of a header over a tree of lanes: parent commitment beside, above activity root and payload digest. */
  ghost function HeaderCommitment(h: Hashes, m: LaneMap, shortcut: Bytes, digest: Bytes, parentSeq: Bytes): Digest
    requires WellKeyed(m)
  {
    var activity := Hash(h, Query(ACTIVITY_ROOT, shortcut + TreeRoot(h, m)));
    Hash(h, Query(MERKLE_BRANCH, parentSeq + Hash(h, Query(MERKLE_BRANCH, activity + digest))))
  }

  /** Against such a header the honest proof of the coinbase lane is accepted, with the roots that the header commits to. */
  lemma HonestHeaderVerifies(h: Hashes, m: LaneMap, shortcut: Bytes, digest: Bytes, parentSeq: Bytes, expected: Option<Bytes>)
    requires WellKeyed(m) && |shortcut| == |digest| == |parentSeq| == 32 && (expected == None || expected == Some(parentSeq))
    ensures var p := Honest(h, m, COINBASE_LANE_KEY);
            && WellFormed(p) && (p.depth < 256 || p.foreign == None)
            && VerifyLaneProof(h, HeaderCommitment(h, m, shortcut, digest, parentSeq),
                               LaneProof(COINBASE_LANE_KEY, ProofBytes(p, COINBASE_LANE_KEY in m), LaneOf(m, COINBASE_LANE_KEY),
                                         shortcut, digest, parentSeq), expected)
            == Ok(VerifiedLane(Hash(h, Query(ACTIVITY_ROOT, shortcut + TreeRoot(h, m))), TreeRoot(h, m), parentSeq, digest))
  {
    hide Honest, ProofBytes, LaneRoot, SubRoot, WellFormed;
    HonestProofVerifies(h, m, COINBASE_LANE_KEY);
  }
}
