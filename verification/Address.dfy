/** The address codec: five-bit groups, checksum and text (scripts/wallet/address.mjs:6-53). */
module Address {
  import opened Results
  import opened Bytes
  import opened Division

  /** A five-bit group. */
  type Five = bv5

  // ---------------------------------------------------------------- the checksum

  /** The last `len` base-32 digits of a number. */
  function Groups(n: nat, len: nat): (g: seq<Five>)
    ensures |g| == len
  {
    if len == 0 then [] else Groups(n / 32, len - 1) + [(n % 32) as bv5]
  }

  /** The 40-bit checksum state as eight groups, most significant first. */
  type Poly = s: seq<Five> | |s| == 8 witness [0, 0, 0, 0, 0, 0, 0, 0]

  const GENERATOR_0: Poly := Groups(0x98_f2bc_8e61, 8)
  const GENERATOR_1: Poly := Groups(0x79_b76d_99e2, 8)
  const GENERATOR_2: Poly := Groups(0xf3_3e5f_b3c4, 8)
  const GENERATOR_3: Poly := Groups(0xae_2eab_e2a8, 8)
  const GENERATOR_4: Poly := Groups(0x1e_4f43_e470, 8)

  /** A generator's groups where its bit is set. */
  function Masked(on: bool, g: Five): Five {
    if on then g else 0
  }

  /** What the top group feeds back into group `j`. */
  function Feedback(top: Five, j: nat): Five
    requires j < 8
  {
    Masked(top & 1 != 0, GENERATOR_0[j]) ^ Masked(top & 2 != 0, GENERATOR_1[j]) ^ Masked(top & 4 != 0, GENERATOR_2[j])
    ^ Masked(top & 8 != 0, GENERATOR_3[j]) ^ Masked(top & 16 != 0, GENERATOR_4[j])
  }

  /** One digit: shift a group out at the top, the digit in at the bottom, and feed the top back. */
  function Step(c: Poly, d: Five): Poly {
    hide Feedback;
    var shifted := c[1..] + [d];
    seq(8, j requires 0 <= j < 8 => shifted[j] ^ Feedback(c[0], j))
  }

  function Run(c: Poly, digits: seq<Five>): Poly {
    if digits == [] then c else Step(Run(c, digits[..|digits| - 1]), digits[|digits| - 1])
  }

  function Number(groups: seq<Five>): nat {
    if groups == [] then 0 else Number(groups[..|groups| - 1]) * 32 + (groups[|groups| - 1] as int)
  }

  function Polymod(digits: seq<Five>): Poly {
    hide Groups, Run;
    var c := Run([0, 0, 0, 0, 0, 0, 0, 1], digits);
    c[7 := c[7] ^ 1]
  }

  function PrefixDigits(prefix: string): (ds: seq<Five>)
    ensures |ds| == |prefix|
  {
    seq(|prefix|, i requires 0 <= i < |prefix| => (prefix[i] as int % 32) as bv5)
  }

  function Checksum(payload: seq<Five>, prefix: string): Poly {
    Polymod(PrefixDigits(prefix) + ([0] + (payload + [0, 0, 0, 0, 0, 0, 0, 0])))
  }

  // ---------------------------------------------------------------- regrouping bits

  function Number8(bytes: Bytes): nat {
    if bytes == [] then 0 else Number8(bytes[..|bytes| - 1]) * 256 + bytes[|bytes| - 1]
  }

  function Octets(n: nat, len: nat): (b: Bytes)
    ensures |b| == len
  {
    if len == 0 then [] else Octets(n / 256, len - 1) + [n % 256]
  }

  /** Padding bits after the last byte. */
  function Padding(bytes: nat): (p: nat)
    ensures p < 5 && (8 * bytes + p) % 5 == 0
  {
    (5 - 8 * bytes % 5) % 5
  }

  /** Bytes as groups of five bits, the last one padded with zeros. */
  function ToFives(bytes: Bytes): (g: seq<Five>)
    ensures 5 * |g| == 8 * |bytes| + Padding(|bytes|)
  {
    Groups(Number8(bytes) * Pow2(Padding(|bytes|)), (8 * |bytes| + Padding(|bytes|)) / 5)
  }

  function Quotient(n: nat, d: nat): nat
    requires d > 0
  {
    n / d
  }

  /** Groups as bytes, bits that fill no byte dropped. */
  function FromFives(groups: seq<Five>): (b: Bytes)
    ensures |b| == 5 * |groups| / 8
  {
    Octets(Quotient(Number(groups), Pow2(5 * |groups| % 8)), 5 * |groups| / 8)
  }

  // ---------------------------------------------------------------- text

  function LowChar(d: Five): char {
    if d == 0 then 'q' else if d == 1 then 'p' else if d == 2 then 'z' else if d == 3 then 'r' else
    if d == 4 then 'y' else if d == 5 then '9' else if d == 6 then 'x' else if d == 7 then '8' else
    if d == 8 then 'g' else if d == 9 then 'f' else if d == 10 then '2' else if d == 11 then 't' else
    if d == 12 then 'v' else if d == 13 then 'd' else if d == 14 then 'w' else '0'
  }

  function HighChar(d: Five): char {
    if d == 16 then 's' else if d == 17 then '3' else if d == 18 then 'j' else if d == 19 then 'n' else
    if d == 20 then '5' else if d == 21 then '4' else if d == 22 then 'k' else if d == 23 then 'h' else
    if d == 24 then 'c' else if d == 25 then 'e' else if d == 26 then '6' else if d == 27 then 'm' else
    if d == 28 then 'u' else if d == 29 then 'a' else if d == 30 then '7' else 'l'
  }

  /** The character of a group: `qpzry9x8gf2tvdw0s3jn54khce6mua7l`. */
  function CharOf(d: Five): char {
    if d < 16 then LowChar(d) else HighChar(d)
  }

  /** The digits in their order. */
  const ALPHABET := "qpzry9x8gf2tvdw0s3jn54khce6mua7l"

  lemma CharIsAlphabet(d: Five)
    ensures d as nat < |ALPHABET| && CharOf(d) == ALPHABET[d as nat]
  {
    if d < 16 {
      LowIsAlphabet(d);
    } else {
      HighIsAlphabet(d);
    }
  }

  lemma LowIsAlphabet(d: Five)
    requires d < 16
    ensures d as nat < 16 && LowChar(d) == ALPHABET[d as nat]
  {
  }

  lemma HighIsAlphabet(d: Five)
    requires d >= 16
    ensures 16 <= d as nat < 32 && HighChar(d) == ALPHABET[d as nat]
  {
  }

  function LowFive(c: char): Option<Five> {
    if c == 'q' then Some(0) else if c == 'p' then Some(1) else if c == 'z' then Some(2) else if c == 'r' then Some(3) else
    if c == 'y' then Some(4) else if c == '9' then Some(5) else if c == 'x' then Some(6) else if c == '8' then Some(7) else
    if c == 'g' then Some(8) else if c == 'f' then Some(9) else if c == '2' then Some(10) else if c == 't' then Some(11) else
    if c == 'v' then Some(12) else if c == 'd' then Some(13) else if c == 'w' then Some(14) else if c == '0' then Some(15) else
    None
  }

  function HighFive(c: char): Option<Five> {
    if c == 's' then Some(16) else if c == '3' then Some(17) else if c == 'j' then Some(18) else if c == 'n' then Some(19) else
    if c == '5' then Some(20) else if c == '4' then Some(21) else if c == 'k' then Some(22) else if c == 'h' then Some(23) else
    if c == 'c' then Some(24) else if c == 'e' then Some(25) else if c == '6' then Some(26) else if c == 'm' then Some(27) else
    if c == 'u' then Some(28) else if c == 'a' then Some(29) else if c == '7' then Some(30) else if c == 'l' then Some(31) else
    None
  }

  function FiveOf(c: char): Option<Five> {
    if LowFive(c).Some? then LowFive(c) else HighFive(c)
  }

  lemma CharReads(d: Five)
    ensures FiveOf(CharOf(d)) == Some(d)
  {
    hide LowFive, HighFive, LowChar, HighChar;
    if d < 16 {
      LowReads(d);
    } else {
      HighReads(d);
    }
  }

  lemma LowReads(d: Five)
    requires d < 16
    ensures LowFive(LowChar(d)) == Some(d)
  {
  }

  lemma HighReads(d: Five)
    requires d >= 16
    ensures LowFive(HighChar(d)) == None && HighFive(HighChar(d)) == Some(d)
  {
  }

  lemma CharIsOnly(c: char)
    ensures FiveOf(c).Some? ==> CharOf(FiveOf(c).value) == c
  {
    hide LowFive, HighFive, LowChar, HighChar;
    LowIsOnly(c);
    HighIsOnly(c);
  }

  lemma LowIsOnly(c: char)
    ensures LowFive(c).Some? ==> LowFive(c).value < 16 && LowChar(LowFive(c).value) == c
  {
  }

  lemma HighIsOnly(c: char)
    ensures HighFive(c).Some? ==> HighFive(c).value >= 16 && HighChar(HighFive(c).value) == c
  {
  }

  // ---------------------------------------------------------------- the checksum loses nothing

  /** The low groups of the generators make the feedback into the last group the top group itself. */
  lemma LastFeedback(top: Five)
    ensures Feedback(top, 7) == top
  {
    hide Groups, Masked;
    LastGroup(0x98_f2bc_8e61, 8, 1);
    LastGroup(0x79_b76d_99e2, 8, 2);
    LastGroup(0xf3_3e5f_b3c4, 8, 4);
    LastGroup(0xae_2eab_e2a8, 8, 8);
    LastGroup(0x1e_4f43_e470, 8, 16);
    Recombine(top);
  }

  lemma LastGroup(n: nat, len: nat, low: Five)
    requires len > 0 && n % 32 == low as int
    ensures Groups(n, len)[len - 1] == low
  {
    assert (low as int) as bv5 == low;
  }

  lemma Recombine(top: Five)
    ensures Masked(top & 1 != 0, 1) ^ Masked(top & 2 != 0, 2) ^ Masked(top & 4 != 0, 4) ^ Masked(top & 8 != 0, 8)
            ^ Masked(top & 16 != 0, 16) == top
  {
  }

  lemma XorCancels(a: Five, b: Five, c: Five)
    requires a ^ c == b ^ c
    ensures a == b
  {
  }

  lemma XorCancelsLeft(a: Five, b: Five, c: Five)
    requires c ^ a == c ^ b
    ensures a == b
  {
  }

  lemma StepAt(c: Poly, d: Five, j: nat)
    requires j < 8
    ensures Step(c, d)[j] == (if j < 7 then c[j + 1] else d) ^ Feedback(c[0], j)
  {
    hide Feedback;
  }

  /** The last group of a step gives away the group that left at the top. */
  lemma TopBack(c: Poly, d: Five)
    ensures Step(c, d)[7] == d ^ c[0]
  {
    hide Feedback, Step;
    StepAt(c, d, 7);
    LastFeedback(c[0]);
  }

  lemma TopKept(c: Poly, e: Poly, d: Five)
    requires Step(c, d) == Step(e, d)
    ensures c[0] == e[0]
  {
    hide Step;
    TopBack(c, d);
    TopBack(e, d);
    XorCancelsLeft(c[0], e[0], d);
  }

  lemma GroupKept(c: Poly, e: Poly, d: Five, j: nat)
    requires Step(c, d) == Step(e, d) && c[0] == e[0] && j < 7
    ensures c[j + 1] == e[j + 1]
  {
    hide Feedback, Step;
    StepAt(c, d, j);
    StepAt(e, d, j);
    XorCancels(c[j + 1], e[j + 1], Feedback(c[0], j));
  }

  /** A step is injective in the state. */
  lemma StepKeepsState(c: Poly, e: Poly, d: Five)
    requires Step(c, d) == Step(e, d)
    ensures c == e
  {
    hide Step;
    TopKept(c, e, d);
    forall j | 0 <= j < 8
      ensures c[j] == e[j]
    {
      if j > 0 {
        GroupKept(c, e, d, j - 1);
      }
    }
  }

  /** A step is injective in the digit. */
  lemma StepKeepsDigit(c: Poly, d: Five, f: Five)
    requires Step(c, d) == Step(c, f)
    ensures d == f
  {
    hide Feedback, Step;
    StepAt(c, d, 7);
    StepAt(c, f, 7);
    XorCancels(d, f, Feedback(c[0], 7));
  }

  lemma {:induction false} RunKeepsState(c: Poly, e: Poly, digits: seq<Five>)
    requires Run(c, digits) == Run(e, digits)
    ensures c == e
  {
    hide Step;
    if digits != [] {
      var n := |digits| - 1;
      StepKeepsState(Run(c, digits[..n]), Run(e, digits[..n]), digits[n]);
      RunKeepsState(c, e, digits[..n]);
    }
  }

  lemma {:induction false} RunConcat(c: Poly, a: seq<Five>, b: seq<Five>)
    ensures Run(c, a + b) == Run(Run(c, a), b)
  {
    hide Step;
    if b == [] {
      assert a + b == a;
    } else {
      var n := |b| - 1;
      assert (a + b)[..|a + b| - 1] == a + b[..n];
      RunConcat(c, a, b[..n]);
    }
  }

  /** One changed digit changes the checksum, wherever it is. */
  lemma OneDigitShows(before: seq<Five>, d: Five, f: Five, after: seq<Five>)
    requires Polymod(before + ([d] + after)) == Polymod(before + ([f] + after))
    ensures d == f
  {
    hide Step;
    var start: Poly := [0, 0, 0, 0, 0, 0, 0, 1];
    var x, y := Run(start, before + ([d] + after)), Run(start, before + ([f] + after));
    LastXor(x, y);
    RunConcat(start, before, [d] + after);
    RunConcat(start, before, [f] + after);
    var c := Run(start, before);
    RunConcat(c, [d], after);
    RunConcat(c, [f], after);
    RunKeepsState(Run(c, [d]), Run(c, [f]), after);
    OneStep(c, d);
    OneStep(c, f);
    StepKeepsDigit(c, d, f);
  }

  lemma OneStep(c: Poly, d: Five)
    ensures Run(c, [d]) == Step(c, d)
  {
    hide Step;
    assert [d][..0] == [];
  }

  lemma LastXor(x: Poly, y: Poly)
    requires x[7 := x[7] ^ 1] == y[7 := y[7] ^ 1]
    ensures x == y
  {
    assert x[7 := x[7] ^ 1][7] == x[7] ^ 1 && y[7 := y[7] ^ 1][7] == y[7] ^ 1;
    XorCancels(x[7], y[7], 1);
    forall j | 0 <= j < 7
      ensures x[j] == y[j]
    {
      assert x[7 := x[7] ^ 1][j] == x[j] && y[7 := y[7] ^ 1][j] == y[j];
    }
  }

  // ---------------------------------------------------------------- regrouping round trips

  lemma {:induction false} NumberBound(groups: seq<Five>)
    ensures Number(groups) < Pow2(5 * |groups|)
  {
    if groups != [] {
      var n := |groups| - 1;
      NumberBound(groups[..n]);
      Pow2Step(5 * n, 5);
    }
  }

  lemma {:induction false} Number8Bound(bytes: Bytes)
    ensures Number8(bytes) < Pow2(8 * |bytes|)
  {
    if bytes != [] {
      var n := |bytes| - 1;
      Number8Bound(bytes[..n]);
      Pow2Step(8 * n, 8);
    }
  }

  lemma Double(x: nat, y: nat)
    ensures 2 * (x * y) == x * (2 * y)
  {
  }

  lemma {:induction false} Pow2Sum(a: nat, b: nat)
    ensures Pow2(a + b) == Pow2(a) * Pow2(b)
  {
    if b > 0 {
      Pow2Sum(a, b - 1);
      Double(Pow2(a), Pow2(b - 1));
    }
  }

  lemma Pow2Step(a: nat, b: nat)
    requires b == 5 || b == 8
    ensures Pow2(a + b) == Pow2(a) * (if b == 5 then 32 else 256)
  {
    Pow2Sum(a, b);
    assert Pow2(4) == 16 && Pow2(8) == 16 * Pow2(4);
  }

  lemma DigitBack(n: nat)
    ensures ((n % 32) as bv5) as int == n % 32
  {
  }

  lemma QuotientBound(n: nat, p: nat)
    requires n < p * 32
    ensures n / 32 < p && n / 32 * 32 + n % 32 == n
  {
  }

  /** Groups of a number in range carry that number. */
  lemma {:induction false} NumberOfGroups(n: nat, len: nat)
    requires n < Pow2(5 * len)
    ensures Number(Groups(n, len)) == n
  {
    hide Pow2;
    if len == 0 {
      assert Pow2(0) == 1 by { NoBits(); }
    } else {
      Pow2Step(5 * (len - 1), 5);
      QuotientBound(n, Pow2(5 * (len - 1)));
      NumberOfGroups(n / 32, len - 1);
      var g := Groups(n, len);
      assert g[..len - 1] == Groups(n / 32, len - 1);
      DigitBack(n);
    }
  }

  lemma NoBits()
    ensures Pow2(0) == 1
  {
  }

  lemma Digit32(q: nat, d: nat)
    requires d < 32
    ensures (q * 32 + d) / 32 == q && (q * 32 + d) % 32 == d
  {
  }

  lemma FiveBack(d: Five)
    ensures (d as int) as bv5 == d
  {
  }

  lemma GroupsNext(q: nat, d: Five, len: nat)
    ensures Groups(q * 32 + (d as int), len + 1) == Groups(q, len) + [d]
  {
    Digit32(q, d as int);
    FiveBack(d);
  }

  lemma {:induction false} GroupsOfNumber(groups: seq<Five>)
    ensures Groups(Number(groups), |groups|) == groups
  {
    hide Groups;
    if groups == [] {
      NoGroups();
    } else {
      var n := |groups| - 1;
      GroupsOfNumber(groups[..n]);
      GroupsNext(Number(groups[..n]), groups[n], n);
      assert groups == groups[..n] + [groups[n]];
    }
  }

  lemma NoGroups()
    ensures Groups(Number([]), 0) == []
  {
  }

  lemma {:induction false} OctetsOfNumber(bytes: Bytes)
    ensures Octets(Number8(bytes), |bytes|) == bytes
  {
    if bytes != [] {
      var n := |bytes| - 1;
      OctetsOfNumber(bytes[..n]);
      assert bytes == bytes[..n] + [bytes[n]];
    }
  }

  lemma {:induction false} NumberOfOctets(n: nat, len: nat)
    requires n < Pow2(8 * len)
    ensures Number8(Octets(n, len)) == n
  {
    if len > 0 {
      Pow2Step(8 * (len - 1), 8);
      NumberOfOctets(n / 256, len - 1);
      var b := Octets(n, len);
      assert b[..len - 1] == Octets(n / 256, len - 1);
    }
  }

  lemma Exact(n: nat, p: nat)
    requires p > 0
    ensures Quotient(n * p, p) == n
  {
    SameQuotient(n, 0, n * p / p, n * p % p, p);
  }

  lemma Shifted(n: nat, bits: nat, p: nat)
    requires n < Pow2(bits)
    ensures n * Pow2(p) < Pow2(bits + p)
  {
    Pow2Sum(bits, p);
    assert (Pow2(bits) - n) * Pow2(p) >= Pow2(p) by { AtLeastOnce(Pow2(bits) - n, Pow2(p)); }
    assert (Pow2(bits) - n) * Pow2(p) == Pow2(bits) * Pow2(p) - n * Pow2(p);
  }

  /** Bytes come back from their groups, padding dropped. */
  lemma BytesRoundTrip(bytes: Bytes)
    ensures FromFives(ToFives(bytes)) == bytes
  {
    hide Groups, Octets, Quotient, Pow2, Number8;
    var n, p := |bytes|, Padding(|bytes|);
    var len := (8 * n + p) / 5;
    var value := Number8(bytes);
    Number8Bound(bytes);
    Shifted(value, 8 * n, p);
    assert 5 * len == 8 * n + p;
    NumberOfGroups(value * Pow2(p), len);
    Exact(value, Pow2(p));
    OctetsOfNumber(bytes);
  }

  /** Eight groups and five bytes carry the same forty bits. */
  lemma SumRoundTrip(sum: Poly)
    ensures ToFives(Octets(Number(sum), 5)) == sum
    ensures Number8(FromFives(sum)) == Number(sum)
  {
    hide Groups, Octets, Quotient, Number8, Number;
    NumberBound(sum);
    NumberOfOctets(Number(sum), 5);
    GroupsOfNumber(sum);
    assert Pow2(0) == 1;
    Exact(Number(sum), 1);
    assert Padding(5) == 0;
  }

  // ---------------------------------------------------------------- the source's loops

  /** Bits of the bytes read so far: the groups written, then `bits` bits in the buffer. */
  predicate Buffered(total: nat, written: nat, bits: nat, buffer: nat) {
    buffer < Pow2(bits) && written * Pow2(bits) + buffer == total
  }

  lemma DivMod(n: nat, d: nat)
    requires d > 0
    ensures n == n / d * d + n % d && 0 <= n % d < d && n / d >= 0
  {
  }

  lemma Regroup(w: nat, base: nat, q: nat, low: nat)
    ensures (w * base + q) * low == w * (base * low) + q * low
  {
  }

  /** A buffer below `base * low` splits into a digit below `base` and a rest below `low`. */
  lemma SplitBuffer(buffer: nat, base: nat, low: nat)
    requires low > 0 && buffer < base * low
    ensures 0 <= buffer / low < base
  {
    DivMod(buffer, low);
    var d := buffer / low;
    if d >= base {
      AtLeast(d, base, low);
    }
  }

  /** Taking the top `width` bits out of the buffer. */
  lemma TakeOut(total: nat, written: nat, bits: nat, buffer: nat, width: nat)
    requires (width == 5 || width == 8) && width <= bits && Buffered(total, written, bits, buffer)
    ensures var base := if width == 5 then 32 else 256;
            var d := buffer / Pow2(bits - width);
            && 0 <= d < base
            && Buffered(total, written * base + d, bits - width, buffer % Pow2(bits - width))
  {
    hide Pow2;
    var base, low := if width == 5 then 32 else 256, Pow2(bits - width);
    Pow2Step(bits - width, width);
    assert Pow2(bits) == base * low;
    SplitBuffer(buffer, base, low);
    DivMod(buffer, low);
    Regroup(written, base, buffer / low, low);
  }

  lemma AtLeast(a: nat, b: nat, d: nat)
    requires a >= b
    ensures a * d >= b * d
  {
  }

  /** Putting `width` more bits into the buffer. */
  lemma PutIn(total: nat, written: nat, bits: nat, buffer: nat, width: nat, x: nat)
    requires (width == 5 || width == 8) && Buffered(total, written, bits, buffer)
    requires x < (if width == 5 then 32 else 256)
    ensures var base := if width == 5 then 32 else 256;
            Buffered(total * base + x, written, bits + width, buffer * base + x)
  {
    var base := if width == 5 then 32 else 256;
    Pow2Step(bits, width);
    assert written * (Pow2(bits) * base) == (written * Pow2(bits)) * base;
    AtLeast(Pow2(bits), buffer + 1, base);
  }

  method Conv8to5(bytes: Bytes) returns (out: seq<Five>)
    ensures out == ToFives(bytes)
  {
    hide Groups, Pow2, Number, Number8, Buffered;
    out := [];
    var buffer, bits := 0, 0;
    EmptyBuffer(bytes);
    for i := 0 to |bytes|
      invariant buffer >= 0 && 0 <= bits < 5 && 5 * |out| + bits == 8 * i
      invariant Buffered(Number8(bytes[..i]), Number(out), bits, buffer)
    {
      PutIn(Number8(bytes[..i]), Number(out), bits, buffer, 8, bytes[i]);
      NextByte(bytes, i);
      buffer, bits := buffer * 256 + bytes[i], bits + 8;
      while bits >= 5
        invariant buffer >= 0 && bits >= 0 && 5 * |out| + bits == 8 * (i + 1)
        invariant Buffered(Number8(bytes[..i + 1]), Number(out), bits, buffer)
      {
        TakeOut(Number8(bytes[..i + 1]), Number(out), bits, buffer, 5);
        bits := bits - 5;
        var d := buffer / Pow2(bits);
        NextGroup(out, d);
        out := out + [(d % 32) as bv5];
        buffer := buffer % Pow2(bits);
      }
    }
    assert bytes[..|bytes|] == bytes;
    if bits > 0 {
      LastGroupPads(bytes, out, bits, buffer);
      out := out + [(buffer * Pow2(5 - bits) % 32) as bv5];
    } else {
      NothingLeft(bytes, out, buffer);
    }
    GroupsOfNumber(out);
  }

  method Conv5to8(five: seq<Five>) returns (out: Bytes)
    ensures out == FromFives(five)
  {
    hide Octets, Pow2, Number, Number8, Buffered, Quotient;
    out := [];
    var buffer, bits := 0, 0;
    EmptyGroups(five);
    for i := 0 to |five|
      invariant buffer >= 0 && 0 <= bits < 8 && 8 * |out| + bits == 5 * i
      invariant Buffered(Number(five[..i]), Number8(out), bits, buffer)
    {
      PutIn(Number(five[..i]), Number8(out), bits, buffer, 5, five[i] as int);
      NumberOfPrefix(five, i + 1);
      buffer, bits := buffer * 32 + (five[i] as int), bits + 5;
      while bits >= 8
        invariant buffer >= 0 && bits >= 0 && 8 * |out| + bits == 5 * (i + 1)
        invariant Buffered(Number(five[..i + 1]), Number8(out), bits, buffer)
      {
        TakeOut(Number(five[..i + 1]), Number8(out), bits, buffer, 8);
        bits := bits - 8;
        var b := buffer / Pow2(bits);
        NextOctet(out, b);
        out := out + [b % 256];
        buffer := buffer % Pow2(bits);
      }
    }
    assert five[..|five|] == five;
    DropRest(five, out, bits, buffer);
    OctetsOfNumber(out);
  }

  lemma EmptyBuffer(bytes: Bytes)
    ensures Buffered(Number8(bytes[..0]), Number([]), 0, 0)
  {
  }

  lemma EmptyGroups(five: seq<Five>)
    ensures Buffered(Number(five[..0]), Number8([]), 0, 0)
  {
  }

  lemma NumberOfPrefix(g: seq<Five>, n: nat)
    requires 0 < n <= |g|
    ensures Number(g[..n]) == Number(g[..n - 1]) * 32 + (g[n - 1] as int)
  {
    assert g[..n][..n - 1] == g[..n - 1];
  }

  lemma NextByte(bytes: Bytes, i: nat)
    requires i < |bytes|
    ensures Number8(bytes[..i + 1]) == Number8(bytes[..i]) * 256 + bytes[i]
  {
    assert bytes[..i + 1][..i] == bytes[..i];
  }

  lemma NextGroup(out: seq<Five>, d: nat)
    requires d < 32
    ensures Number(out + [(d % 32) as bv5]) == Number(out) * 32 + d
  {
    var next := out + [(d % 32) as bv5];
    assert next[..|out|] == out;
    assert (d as bv5) as int == d;
  }

  lemma NextOctet(out: Bytes, b: nat)
    requires b < 256
    ensures Number8(out + [b % 256]) == Number8(out) * 256 + b
  {
    assert (out + [b % 256])[..|out|] == out;
  }

  lemma Scaled(w: nat, top: nat, buffer: nat, p: nat, total: nat)
    requires w * top + buffer == total && top * p == 32
    ensures w * 32 + buffer * p == total * p
  {
    assert total * p == (w * top) * p + buffer * p;
    assert (w * top) * p == w * (top * p);
  }

  lemma PaddingOf(bytes: nat, out: nat, bits: nat)
    requires bits < 5 && 5 * out + bits == 8 * bytes
    ensures Padding(bytes) == if bits == 0 then 0 else 5 - bits
  {
    RemainderIs(out, bits);
    PadOf(bits);
  }

  lemma RemainderIs(q: nat, r: nat)
    requires r < 5
    ensures (5 * q + r) % 5 == r
  {
  }

  lemma PadOf(r: nat)
    requires r < 5
    ensures (5 - r) % 5 == if r == 0 then 0 else 5 - r
  {
  }

  lemma LastGroupPads(bytes: Bytes, out: seq<Five>, bits: nat, buffer: nat)
    requires 0 < bits < 5 && 5 * |out| + bits == 8 * |bytes| && Buffered(Number8(bytes), Number(out), bits, buffer)
    ensures Padding(|bytes|) == 5 - bits
    ensures buffer * Pow2(5 - bits) >= 0
    ensures Number(out + [(buffer * Pow2(5 - bits) % 32) as bv5]) == Number8(bytes) * Pow2(5 - bits)
  {
    hide Number, Number8, Pow2, Padding;
    var p := Pow2(5 - bits);
    PaddingOf(|bytes|, |out|, bits);
    Pow2Sum(bits, 5 - bits);
    FiveBits();
    Shifted(buffer, bits, 5 - bits);
    Scaled(Number(out), Pow2(bits), buffer, p, Number8(bytes));
    NextGroup(out, buffer * p);
  }

  lemma FiveBits()
    ensures Pow2(5) == 32
  {
    assert Pow2(3) == 8;
  }

  lemma NothingLeft(bytes: Bytes, out: seq<Five>, buffer: nat)
    requires 5 * |out| == 8 * |bytes| && Buffered(Number8(bytes), Number(out), 0, buffer)
    ensures Padding(|bytes|) == 0 && Number(out) == Number8(bytes) * Pow2(0)
  {
    hide Number, Number8;
    assert Pow2(0) == 1;
  }

  lemma DropRest(five: seq<Five>, out: Bytes, bits: nat, buffer: nat)
    requires bits < 8 && 8 * |out| + bits == 5 * |five| && Buffered(Number(five), Number8(out), bits, buffer)
    ensures |out| == 5 * |five| / 8 && bits == 5 * |five| % 8
    ensures Number8(out) == Quotient(Number(five), Pow2(bits))
  {
    hide Number, Number8, Pow2;
    var p := Pow2(bits);
    DivMod(Number(five), p);
    SameQuotient(Number8(out), buffer, Number(five) / p, Number(five) % p, p);
  }
}
