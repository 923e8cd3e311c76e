/** Byte strings and their little-endian numbers (scripts/core/src/bytes.ts). */
module Bytes {
  import opened Results

  type Byte = b: int | 0 <= b < 256
  type Bytes = seq<Byte>

  function Pow256(width: nat): (p: nat)
    ensures p >= 1
  {
    if width == 0 then 1 else 256 * Pow256(width - 1)
  }

  /** The `width` low base-256 digits of `n`, least significant first. */
  function Le(n: nat, width: nat): (b: Bytes)
    ensures |b| == width
  {
    if width == 0 then [] else [n % 256] + Le(n / 256, width - 1)
  }

  function FromLe(b: Bytes): nat {
    if b == [] then 0 else b[0] + 256 * FromLe(b[1..])
  }

  /** `le` with its range check. */
  function LeChecked(n: int, width: nat): Result<Bytes> {
    if 0 <= n < Pow256(width) then Ok(Le(n, width)) else Err(INTEGER_RANGE)
  }

  function Zeros(n: nat): (b: Bytes)
    ensures |b| == n && forall i | 0 <= i < n :: b[i] == 0
  {
    seq(n, _ => 0)
  }

  /** The bytes of an ASCII text. */
  function Ascii(s: string): (b: Bytes)
    requires forall i | 0 <= i < |s| :: s[i] < 256 as char
    ensures |b| == |s|
  {
    seq(|s|, i requires 0 <= i < |s| => s[i] as int)
  }

  function Pow2(k: nat): (p: nat)
    ensures p >= 1
  {
    if k == 0 then 1 else 2 * Pow2(k - 1)
  }

  /** Equal concatenations whose first parts have one length are equal part by part. */
  lemma Halves(a: Bytes, b: Bytes, c: Bytes, d: Bytes)
    requires |a| == |c| && a + b == c + d
    ensures a == c && b == d
  {
    assert (a + b)[..|a|] == a && (c + d)[..|c|] == c;
    assert (a + b)[|a|..] == b && (c + d)[|c|..] == d;
  }

  // Codec laws

  lemma {:induction false} FromLeOfLe(n: nat, width: nat)
    requires n < Pow256(width)
    ensures FromLe(Le(n, width)) == n
  {
    if width > 0 {
      FromLeOfLe(n / 256, width - 1);
      assert Le(n, width)[1..] == Le(n / 256, width - 1);
    }
  }

  lemma {:induction false} FromLeBound(b: Bytes)
    ensures FromLe(b) < Pow256(|b|)
  {
    if b != [] {
      FromLeBound(b[1..]);
    }
  }

  lemma NoDigits()
    ensures Le(0, 0) == []
  {
  }

  lemma LeDigit(d: Byte, rest: nat, width: nat)
    ensures Le(d + 256 * rest, width + 1) == [d] + Le(rest, width)
  {
    assert (d + 256 * rest) % 256 == d && (d + 256 * rest) / 256 == rest;
  }

  lemma {:induction false} LeOfFromLe(b: Bytes)
    ensures FromLe(b) < Pow256(|b|)
    ensures Le(FromLe(b), |b|) == b
  {
    hide Le;
    FromLeBound(b);
    if b == [] {
      assert Le(0, 0) == [] by { NoDigits(); }
    } else {
      var rest := FromLe(b[1..]);
      LeOfFromLe(b[1..]);
      LeDigit(b[0], rest, |b| - 1);
      assert b == [b[0]] + b[1..];
    }
  }

  lemma LeInjective(m: nat, n: nat, width: nat)
    requires m < Pow256(width) && n < Pow256(width)
    requires Le(m, width) == Le(n, width)
    ensures m == n
  {
    FromLeOfLe(m, width);
    FromLeOfLe(n, width);
  }

  lemma Pow256Values()
    ensures Pow256(0) == 1 && Pow256(1) == 0x100 && Pow256(2) == 0x1_0000
    ensures Pow256(4) == 0x1_0000_0000
    ensures Pow256(7) == 0x100_0000_0000_0000
    ensures Pow256(8) == 0x1_0000_0000_0000_0000
  {
    assert Pow256(1) == 256 * Pow256(0);
    assert Pow256(2) == 256 * Pow256(1);
    assert Pow256(3) == 256 * Pow256(2);
    assert Pow256(4) == 256 * Pow256(3);
    assert Pow256(5) == 256 * Pow256(4);
    assert Pow256(6) == 256 * Pow256(5);
    assert Pow256(7) == 256 * Pow256(6);
    assert Pow256(8) == 256 * Pow256(7);
  }

  /** Reading a concatenation piece by piece. */
  lemma {:induction false} FromLeConcat(a: Bytes, b: Bytes)
    ensures FromLe(a + b) == FromLe(a) + Pow256(|a|) * FromLe(b)
  {
    if a == [] {
      assert a + b == b;
    } else {
      FirstByte(a, b);
      FromLeConcat(a[1..], b);
      Regroup(256, Pow256(|a| - 1), FromLe(b));
    }
  }

  lemma FirstByte(a: Bytes, b: Bytes)
    requires a != []
    ensures FromLe(a + b) == a[0] + 256 * FromLe(a[1..] + b)
  {
    assert (a + b)[1..] == a[1..] + b;
  }

  lemma Regroup(a: int, b: int, c: int)
    ensures a * (b * c) == (a * b) * c
  {
  }

  /** A four-byte field below 2^31 is one whose last byte has its sign bit clear. */
  lemma SignByte(b: Bytes)
    requires |b| > 0
    ensures b[|b| - 1] < 128 <==> FromLe(b) < 128 * Pow256(|b| - 1)
  {
    var lo, hi := b[..|b| - 1], b[|b| - 1..];
    assert b == lo + hi;
    FromLeConcat(lo, hi);
    FromLeBound(lo);
    assert hi[1..] == [];
    TopDigit(Pow256(|lo|), FromLe(lo), hi[0]);
  }

  lemma TopDigit(p: nat, lo: nat, h: nat)
    requires lo < p
    ensures h < 128 <==> lo + p * h < 128 * p
  {
    if h < 128 {
      assert p * h <= p * 127;
    } else {
      assert p * h >= p * 128;
    }
  }

  // The loops of the source

  lemma NextByte(b: Bytes, rest: nat, width: nat)
    requires width > 0
    ensures b + Le(rest, width) == b + [rest % 256] + Le(rest / 256, width - 1)
  {
  }

  lemma NoBytesLeft(b: Bytes, rest: nat)
    ensures b + Le(rest, 0) == b
  {
  }

  method LeBytes(n: int, width: nat) returns (r: Result<Bytes>)
    ensures r == LeChecked(n, width)
  {
    if !(0 <= n < Pow256(width)) {
      return Err(INTEGER_RANGE);
    }
    hide Le;
    var b: Bytes, rest := [], n;
    for i := 0 to width
      invariant rest >= 0
      invariant b + Le(rest, width - i) == Le(n, width)
    {
      NextByte(b, rest, width - i);
      b, rest := b + [rest % 256], rest / 256;
    }
    NoBytesLeft(b, rest);
    return Ok(b);
  }

  method ReadLe(b: Bytes) returns (n: nat)
    ensures n == FromLe(b)
  {
    n := 0;
    assert b[|b|..] == [];
    for i := |b| downto 0
      invariant n == FromLe(b[i..])
    {
      assert b[i..][1..] == b[i + 1..];
      n := n * 256 + b[i];
    }
    assert b[0..] == b;
  }
}
