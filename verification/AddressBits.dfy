/** The address checksum as the source computes it, on one 40-bit number with shifts, masks and exclusive-ors
    (scripts/wallet/address.mjs:8-20), against the model on eight groups of five bits. */
module AddressBits {
  import opened Division
  import opened Bytes
  import opened Address

  /** Bitwise exclusive-or of two numbers. */
  function Xor(a: nat, b: nat): nat {
    if a == 0 && b == 0 then 0 else 2 * Xor(a / 2, b / 2) + if a % 2 != b % 2 then 1 else 0
  }

  const LOW_35 := 0x8_0000_0000

  function XorIf(on: bool, c: nat, generator: nat): nat {
    if on then Xor(c, generator) else c
  }

  /** One turn of the source's fold: the top five bits out, the digit in, then a generator for each top bit that was set. */
  function NumberStep(c: nat, d: nat): nat {
    hide Xor;
    NumberChain(Xor(c % LOW_35 * 32, d), c / LOW_35)
  }

  function NumberChain(c: nat, top: nat): nat {
    hide XorIf;
    var c := XorIf(top % 2 == 1, c, 0x98_f2bc_8e61);
    var c := XorIf(top / 2 % 2 == 1, c, 0x79_b76d_99e2);
    var c := XorIf(top / 4 % 2 == 1, c, 0xf3_3e5f_b3c4);
    var c := XorIf(top / 8 % 2 == 1, c, 0xae_2eab_e2a8);
    XorIf(top / 16 % 2 == 1, c, 0x1e_4f43_e470)
  }

  /** The source's fold. */
  method FoldPolymod(digits: seq<Five>) returns (c: nat)
    ensures c == Number(Polymod(digits))
  {
    hide Step, Number, Xor, NumberStep, Groups;
    c := 1;
    ghost var start: Poly := [0, 0, 0, 0, 0, 0, 0, 1];
    NumberOne();
    for i := 0 to |digits|
      invariant c == Number(Run(start, digits[..i]))
    {
      assert digits[..i + 1][..i] == digits[..i];
      StepIsNumberStep(Run(start, digits[..i]), digits[i]);
      c := NumberStep(c, digits[i] as int);
    }
    assert digits[..|digits|] == digits;
    LastIsXor(Run(start, digits));
    c := Xor(c, 1);
  }

  // ---------------------------------------------------------------- exclusive-or, bit by bit

  lemma XorStep(a: nat, b: nat)
    ensures Xor(a, b) == 2 * Xor(a / 2, b / 2) + if a % 2 != b % 2 then 1 else 0
  {
  }

  lemma XorZero()
    ensures Xor(0, 0) == 0
  {
  }

  lemma Half(x: Five)
    ensures (x >> 1) as int == x as int / 2 && (x & 1) as int == x as int % 2
    ensures x != 0 <==> x as int > 0
  {
  }

  lemma XorHalf(x: Five, y: Five)
    ensures (x ^ y) >> 1 == (x >> 1) ^ (y >> 1) && (x ^ y) & 1 == (x & 1) ^ (y & 1)
  {
  }

  lemma XorBit(x: Five, y: Five)
    requires x <= 1 && y <= 1
    ensures (x ^ y) as int == if x as int != y as int then 1 else 0
  {
  }

  lemma XorParts(x: Five, y: Five)
    ensures (x ^ y) as int == 2 * (((x >> 1) ^ (y >> 1)) as int) + if x as int % 2 != y as int % 2 then 1 else 0
  {
    Half(x);
    Half(y);
    Half(x ^ y);
    XorHalf(x, y);
    XorBit(x & 1, y & 1);
  }

  /** On groups, the bit-vector operator is the same. */
  lemma {:induction false} XorFive(x: Five, y: Five)
    ensures Xor(x as int, y as int) == (x ^ y) as int
    decreases x as int + y as int
  {
    hide Xor;
    Half(x);
    Half(y);
    XorParts(x, y);
    if x == 0 && y == 0 {
      XorZero();
    } else {
      XorFive(x >> 1, y >> 1);
      XorStep(x as int, y as int);
    }
  }

  lemma HalfOf(q: nat, p: nat, x: nat)
    ensures (q * (2 * p) + x) / 2 == q * p + x / 2 && (q * (2 * p) + x) % 2 == x % 2
  {
    assert q * (2 * p) == 2 * (q * p);
  }

  /** Numbers side by side are combined side by side. */
  lemma {:induction false} XorAppend(q: nat, r: nat, x: nat, y: nat, w: nat)
    requires x < Pow2(w) && y < Pow2(w)
    ensures Xor(q * Pow2(w) + x, r * Pow2(w) + y) == Xor(q, r) * Pow2(w) + Xor(x, y)
  {
    hide Xor, Pow2;
    if w == 0 {
      NoBits();
      XorZero();
    } else {
      var p := Pow2(w - 1);
      Twice(w);
      HalfOf(q, p, x);
      HalfOf(r, p, y);
      XorAppend(q, r, x / 2, y / 2, w - 1);
      XorStep(q * (2 * p) + x, r * (2 * p) + y);
      XorStep(x, y);
      Carry(Xor(q, r), p, Xor(x / 2, y / 2));
    }
  }

  lemma Twice(w: nat)
    requires w > 0
    ensures Pow2(w) == 2 * Pow2(w - 1)
  {
  }

  lemma Carry(u: nat, p: nat, v: nat)
    ensures 2 * (u * p + v) == u * (2 * p) + 2 * v
  {
  }

  // ---------------------------------------------------------------- groups and their number

  function Xors(a: seq<Five>, b: seq<Five>): (c: seq<Five>)
    requires |a| == |b|
    ensures |c| == |a|
  {
    seq(|a|, i requires 0 <= i < |a| => a[i] ^ b[i])
  }

  lemma FiveBelow(d: Five)
    ensures 0 <= d as int < 32
  {
  }

  lemma NumberNone()
    ensures Number([]) == 0
  {
  }

  lemma XorDigits(q: nat, r: nat, x: Five, y: Five)
    ensures 0 <= x as int && 0 <= y as int
    ensures Xor(q * 32 + x as int, r * 32 + y as int) == Xor(q, r) * 32 + ((x ^ y) as int)
  {
    hide Xor, Pow2;
    FiveBits();
    FiveBelow(x);
    FiveBelow(y);
    XorAppend(q, r, x as int, y as int, 5);
    XorFive(x, y);
  }

  lemma LastGroupOf(g: seq<Five>)
    requires g != []
    ensures Number(g) == Number(g[..|g| - 1]) * 32 + (g[|g| - 1] as int)
  {
  }

  lemma {:induction false} NumberOfXors(a: seq<Five>, b: seq<Five>)
    requires |a| == |b|
    ensures Number(Xors(a, b)) == Xor(Number(a), Number(b))
  {
    hide Xor, Number, Pow2;
    if a == [] {
      XorZero();
      NumberNone();
      assert Xors(a, b) == [] && b == [];
    } else {
      var n := |a| - 1;
      LastGroupOf(a);
      LastGroupOf(b);
      LastGroupOf(Xors(a, b));
      NumberOfXors(a[..n], b[..n]);
      assert Xors(a, b)[..n] == Xors(a[..n], b[..n]);
      XorDigits(Number(a[..n]), Number(b[..n]), a[n], b[n]);
    }
  }

  lemma {:induction false} NumberConcat(a: seq<Five>, b: seq<Five>)
    ensures Number(a + b) == Number(a) * Pow2(5 * |b|) + Number(b)
  {
    if b == [] {
      assert a + b == a;
    } else {
      var n := |b| - 1;
      assert (a + b)[..|a + b| - 1] == a + b[..n];
      NumberConcat(a, b[..n]);
      Pow2Step(5 * n, 5);
      Scale(Number(a), Pow2(5 * n), Number(b[..n]), b[n] as int);
    }
  }

  lemma Scale(x: nat, p: nat, y: nat, d: nat)
    ensures (x * p + y) * 32 + d == x * (p * 32) + (y * 32 + d)
  {
    assert x * (p * 32) == (x * p) * 32;
  }

  lemma NumberSingle(d: Five)
    ensures Number([d]) == d as int
  {
    assert [d][..0] == [];
  }

  lemma Bits35()
    ensures Pow2(35) == LOW_35
  {
    hide Pow2;
    Pow2Step(30, 5);
    Pow2Step(25, 5);
    Pow2Step(20, 5);
    Pow2Step(15, 5);
    Pow2Step(10, 5);
    Pow2Step(5, 5);
    FiveBits();
  }

  lemma Bits40()
    ensures Pow2(40) == 0x100_0000_0000
  {
    hide Pow2;
    Bits35();
    Pow2Step(35, 5);
  }

  /** The top group is what the source shifts out. */
  lemma TopShiftedOut(c: Poly)
    ensures Number(c) / LOW_35 == c[0] as int && Number(c) % LOW_35 == Number(c[1..])
  {
    hide Number;
    assert c == [c[0]] + c[1..];
    NumberConcat([c[0]], c[1..]);
    NumberSingle(c[0]);
    NumberBound(c[1..]);
    Bits35();
    SameQuotient(c[0] as int, Number(c[1..]), Number(c) / LOW_35, Number(c) % LOW_35, LOW_35);
  }

  /** The digit comes in at the bottom. */
  lemma DigitShiftedIn(c: Poly, d: Five)
    ensures Number(c[1..] + [d]) == Xor(Number(c[1..]) * 32, d as int)
  {
    hide Number, Xor;
    NumberConcat(c[1..], [d]);
    NumberSingle(d);
    FiveBits();
    FiveBelow(d);
    XorAppend(Number(c[1..]), 0, 0, d as int, 5);
    XorWithZero(Number(c[1..]));
    ZeroXor(d as int);
  }

  lemma {:induction false} XorWithZero(n: nat)
    ensures Xor(n, 0) == n
  {
    if n > 0 {
      XorWithZero(n / 2);
    }
  }

  lemma {:induction false} ZeroXor(n: nat)
    ensures Xor(0, n) == n
  {
    if n > 0 {
      ZeroXor(n / 2);
    }
  }

  // ---------------------------------------------------------------- the generators

  function MaskIf(on: bool, g: Poly): Poly {
    if on then g else [0, 0, 0, 0, 0, 0, 0, 0]
  }

  lemma GeneratorNumber(n: nat)
    requires n < 0x100_0000_0000
    ensures Number(Groups(n, 8)) == n
  {
    hide Groups, Number;
    Bits40();
    NumberOfGroups(n, 8);
  }

  lemma ZerosNumber()
    ensures Number([0, 0, 0, 0, 0, 0, 0, 0]) == 0
  {
    hide Number;
    GeneratorNumber(0);
    ZeroGroups();
  }

  lemma ZeroGroups()
    ensures Groups(0, 8) == [0, 0, 0, 0, 0, 0, 0, 0]
  {
    assert Groups(0, 2) == [0, 0];
    assert Groups(0, 4) == [0, 0, 0, 0];
    assert Groups(0, 6) == [0, 0, 0, 0, 0, 0];
  }

  /** A masked generator's exclusive-or is the source's conditional one. */
  lemma MaskedXor(x: Poly, on: bool, n: nat)
    requires n < 0x100_0000_0000
    ensures Number(Xors(x, MaskIf(on, Groups(n, 8)))) == XorIf(on, Number(x), n)
  {
    hide Groups, Number, Xor, Xors;
    NumberOfXors(x, MaskIf(on, Groups(n, 8)));
    GeneratorNumber(n);
    ZerosNumber();
    XorWithZero(Number(x));
  }

  lemma TopBits(top: Five)
    ensures (top & 1 != 0) <==> top as int % 2 == 1
    ensures (top & 2 != 0) <==> top as int / 2 % 2 == 1
    ensures (top & 4 != 0) <==> top as int / 4 % 2 == 1
    ensures (top & 8 != 0) <==> top as int / 8 % 2 == 1
    ensures (top & 16 != 0) <==> top as int / 16 % 2 == 1
  {
    Half(top);
    Half(top >> 1);
    Half(top >> 2);
    Half(top >> 3);
    Half(top >> 4);
    Shifts(top);
    Quarters(top as int);
  }

  lemma Shifts(top: Five)
    ensures (top >> 1) >> 1 == top >> 2 && (top >> 2) >> 1 == top >> 3 && (top >> 3) >> 1 == top >> 4
    ensures (top & 1 != 0) <==> top & 1 == 1
    ensures (top & 2 != 0) <==> (top >> 1) & 1 == 1
    ensures (top & 4 != 0) <==> (top >> 2) & 1 == 1
    ensures (top & 8 != 0) <==> (top >> 3) & 1 == 1
    ensures (top & 16 != 0) <==> (top >> 4) & 1 == 1
  {
  }

  lemma Quarters(n: nat)
    ensures n / 2 / 2 == n / 4 && n / 4 / 2 == n / 8 && n / 8 / 2 == n / 16
  {
  }

  lemma Regrouped(s: Five, a: Five, b: Five, c: Five, d: Five, e: Five)
    ensures s ^ (a ^ b ^ c ^ d ^ e) == ((((s ^ a) ^ b) ^ c) ^ d) ^ e
  {
  }

  /** A step as a chain of exclusive-ors, one generator after the other. */
  function Chain(x: Poly, top: Five): Poly {
    hide Groups;
    Xors(Xors(Xors(Xors(Xors(x, MaskIf(top & 1 != 0, GENERATOR_0)), MaskIf(top & 2 != 0, GENERATOR_1)),
                   MaskIf(top & 4 != 0, GENERATOR_2)), MaskIf(top & 8 != 0, GENERATOR_3)), MaskIf(top & 16 != 0, GENERATOR_4))
  }

  lemma MaskAt(on: bool, g: Poly, j: nat)
    requires j < 8
    ensures MaskIf(on, g)[j] == Masked(on, g[j])
  {
  }

  lemma ChainAt(x: Poly, top: Five, j: nat)
    requires j < 8
    ensures Chain(x, top)[j] == x[j] ^ Feedback(top, j)
  {
    hide Groups, MaskIf, Masked;
    MaskAt(top & 1 != 0, GENERATOR_0, j);
    MaskAt(top & 2 != 0, GENERATOR_1, j);
    MaskAt(top & 4 != 0, GENERATOR_2, j);
    MaskAt(top & 8 != 0, GENERATOR_3, j);
    MaskAt(top & 16 != 0, GENERATOR_4, j);
    Regrouped(x[j], Masked(top & 1 != 0, GENERATOR_0[j]), Masked(top & 2 != 0, GENERATOR_1[j]),
              Masked(top & 4 != 0, GENERATOR_2[j]), Masked(top & 8 != 0, GENERATOR_3[j]), Masked(top & 16 != 0, GENERATOR_4[j]));
  }

  lemma StepIsChain(c: Poly, d: Five)
    ensures Step(c, d) == Chain(c[1..] + [d], c[0])
  {
    hide Step, Chain, Feedback, Groups;
    var x: Poly := c[1..] + [d];
    forall j | 0 <= j < 8
      ensures Step(c, d)[j] == Chain(x, c[0])[j]
    {
      StepAt(c, d, j);
      ChainAt(x, c[0], j);
    }
  }

  lemma ChainNumber(x: Poly, top: Five)
    ensures 0 <= top as int && Number(Chain(x, top)) == NumberChain(Number(x), top as int)
  {
    hide Groups, Number, Xors, MaskIf, XorIf;
    TopBits(top);
    var a: Poly := Xors(x, MaskIf(top & 1 != 0, GENERATOR_0));
    var b: Poly := Xors(a, MaskIf(top & 2 != 0, GENERATOR_1));
    var c: Poly := Xors(b, MaskIf(top & 4 != 0, GENERATOR_2));
    var d: Poly := Xors(c, MaskIf(top & 8 != 0, GENERATOR_3));
    MaskedXor(x, top & 1 != 0, 0x98_f2bc_8e61);
    MaskedXor(a, top & 2 != 0, 0x79_b76d_99e2);
    MaskedXor(b, top & 4 != 0, 0xf3_3e5f_b3c4);
    MaskedXor(c, top & 8 != 0, 0xae_2eab_e2a8);
    MaskedXor(d, top & 16 != 0, 0x1e_4f43_e470);
  }

  /** A step on groups is the source's step on the number. */
  lemma StepIsNumberStep(c: Poly, d: Five)
    ensures 0 <= d as int && Number(Step(c, d)) == NumberStep(Number(c), d as int)
  {
    hide Number, Step, Chain, Xor, NumberChain;
    FiveBelow(d);
    StepIsChain(c, d);
    TopShiftedOut(c);
    DigitShiftedIn(c, d);
    ChainNumber(c[1..] + [d], c[0]);
  }

  lemma NumberOne()
    ensures Number([0, 0, 0, 0, 0, 0, 0, 1]) == 1
  {
    hide Number;
    var zeros: seq<Five> := [0, 0, 0, 0, 0, 0, 0];
    NumberConcat(zeros, [1]);
    NumberConcat(zeros, [0]);
    NumberSingle(1);
    NumberSingle(0);
    ZerosNumber();
    FiveBits();
    NoNumber(Number(zeros));
    assert zeros + [1] == [0, 0, 0, 0, 0, 0, 0, 1] && zeros + [0] == [0, 0, 0, 0, 0, 0, 0, 0];
  }

  lemma NoNumber(n: nat)
    ensures n * 32 == 0 ==> n == 0
  {
  }

  /** The closing exclusive-or with one. */
  lemma LastIsXor(c: Poly)
    ensures Number(c[7 := c[7] ^ 1]) == Xor(Number(c), 1)
  {
    hide Number, Xor;
    var one: Poly := [0, 0, 0, 0, 0, 0, 0, 1];
    assert Xors(c, one) == c[7 := c[7] ^ 1] by {
      forall j | 0 <= j < 8
        ensures Xors(c, one)[j] == c[7 := c[7] ^ 1][j]
      {
        WithZero(c[j]);
      }
    }
    NumberOfXors(c, one);
    NumberOne();
  }

  lemma WithZero(d: Five)
    ensures d ^ 0 == d
  {
  }
}
