/** JSON string literals over UTF-16 code units: the escaping writer and its reader
    (JSON.stringify and JSON.parse as scripts/chain/json.mjs:20-34,105 and scripts/core/src/bytes.ts:77-93 use them). */
module JsonStrings {
  import opened Results

  type Unit = u: int | 0 <= u < 0x1_0000
  type Text = seq<Unit>

  /** An ASCII text in code units. */
  function Name(s: string): (t: Text)
    requires forall i | 0 <= i < |s| :: s[i] < 128 as char
    ensures |t| == |s| && forall i | 0 <= i < |s| :: t[i] == s[i] as int
  {
    seq(|s|, i requires 0 <= i < |s| => s[i] as int)
  }

  const QUOTE := 0x22
  const BACKSLASH := 0x5c

  // ---------------------------------------------------------------- hexadecimal

  function HexDigit(n: nat): Unit
    requires n < 16
  {
    if n < 10 then 0x30 + n else 0x57 + n
  }

  /** Four lower-case hexadecimal digits. */
  function Hex4(n: nat): (t: Text)
    requires n < 0x1_0000
    ensures |t| == 4
  {
    [HexDigit(n / 0x1000), HexDigit(n / 0x100 % 16), HexDigit(n / 16 % 16), HexDigit(n % 16)]
  }

  function DigitValue(u: Unit): Option<nat> {
    if 0x30 <= u <= 0x39 then Some(u - 0x30)
    else if 0x61 <= u <= 0x66 then Some(u - 0x57)
    else if 0x41 <= u <= 0x46 then Some(u - 0x37)
    else None
  }

  function ReadHex4(t: Text): Option<Unit>
    requires |t| >= 4
  {
    var a, b, c, d := DigitValue(t[0]), DigitValue(t[1]), DigitValue(t[2]), DigitValue(t[3]);
    if a.Some? && b.Some? && c.Some? && d.Some? && a.value < 16 && b.value < 16 && c.value < 16 && d.value < 16
    then Some(a.value * 0x1000 + b.value * 0x100 + c.value * 16 + d.value) else None
  }

  // ---------------------------------------------------------------- writing

  predicate High(u: Unit) { 0xd800 <= u <= 0xdbff }
  predicate Low(u: Unit) { 0xdc00 <= u <= 0xdfff }

  /** A surrogate without its other half. */
  predicate Lone(s: Text, i: nat)
    requires i < |s|
  {
    || (High(s[i]) && !(i + 1 < |s| && Low(s[i + 1])))
    || (Low(s[i]) && !(i > 0 && High(s[i - 1])))
  }

  function ShortEscape(u: Unit): Option<Unit> {
    if u == QUOTE then Some(QUOTE)
    else if u == BACKSLASH then Some(BACKSLASH)
    else if u == 8 then Some(0x62)
    else if u == 9 then Some(0x74)
    else if u == 10 then Some(0x6e)
    else if u == 12 then Some(0x66)
    else if u == 13 then Some(0x72)
    else None
  }

  /** How one code unit is written. */
  function Chunk(u: Unit, lone: bool): (t: Text)
    ensures t != []
  {
    if ShortEscape(u).Some? then [BACKSLASH, ShortEscape(u).value]
    else if u < 0x20 || lone then [BACKSLASH, 0x75] + Hex4(u)
    else [u]
  }

  /** The escaped text from unit `i` on. */
  function EscapedFrom(s: Text, i: nat): Text
    requires i <= |s|
    decreases |s| - i
  {
    if i == |s| then [] else Chunk(s[i], Lone(s, i)) + EscapedFrom(s, i + 1)
  }

  function Quoted(s: Text): Text {
    [QUOTE] + (EscapedFrom(s, 0) + [QUOTE])
  }

  // ---------------------------------------------------------------- reading

  function ShortUnescape(u: Unit): Option<Unit> {
    if u == QUOTE || u == BACKSLASH || u == 0x2f then Some(u)
    else if u == 0x62 then Some(8)
    else if u == 0x66 then Some(12)
    else if u == 0x6e then Some(10)
    else if u == 0x72 then Some(13)
    else if u == 0x74 then Some(9)
    else None
  }

  /** The unit at the head of an escaped text, and how many units it takes; None for a malformed escape. */
  function HeadUnit(t: Text): (r: Option<(Unit, nat)>)
    requires t != []
    ensures r.Some? ==> 0 < r.value.1 <= |t|
  {
    if t[0] == QUOTE || t[0] < 0x20 then None
    else if t[0] != BACKSLASH then Some((t[0], 1))
    else if |t| >= 2 && ShortUnescape(t[1]).Some? then Some((ShortUnescape(t[1]).value, 2))
    else if |t| >= 6 && t[1] == 0x75 && ReadHex4(t[2..]).Some? then Some((ReadHex4(t[2..]).value, 6))
    else None
  }

  /** The contents of a string literal. */
  function Unescape(raw: Text): Option<Text>
    decreases |raw|
  {
    if raw == [] then Some([])
    else
      match HeadUnit(raw)
      case None => None
      case Some((u, n)) =>
        match Unescape(raw[n..])
        case None => None
        case Some(rest) => Some([u] + rest)
  }

  /** Where the literal that starts `t` ends: the index of its closing quote. */
  function ClosingQuote(t: Text, j: nat): (r: Result<nat>)
    ensures r.Ok? ==> j <= r.value < |t| && t[r.value] == QUOTE
    decreases |t| - j
  {
    if j >= |t| then Err(JSON_STRING)
    else if t[j] == QUOTE then Ok(j)
    else if t[j] == BACKSLASH then (if j + 2 <= |t| then ClosingQuote(t, j + 2) else Err(JSON_STRING))
    else if t[j] < 0x20 then Err(JSON_CONTROL)
    else ClosingQuote(t, j + 1)
  }

  datatype Literal = Literal(text: Text, rest: Text)

  /** Reads a literal whose opening quote has been taken. */
  function ReadString(t: Text): (r: Result<Literal>)
    ensures r.Ok? ==> |r.value.rest| < |t|
  {
    var j :- ClosingQuote(t, 0);
    var raw := t[..j];
    if BACKSLASH in raw then
      match Unescape(raw)
      case None => Err(JSON_ESCAPE)
      case Some(s) => Ok(Literal(s, t[j + 1..]))
    else Ok(Literal(raw, t[j + 1..]))
  }

  // ---------------------------------------------------------------- round trip

  /** One hexadecimal digit reads back. */
  lemma DigitReads(n: nat)
    requires n < 16
    ensures DigitValue(HexDigit(n)) == Some(n)
  {
  }

  lemma Split(n: nat)
    ensures n == n / 16 * 16 + n % 16 && 0 <= n % 16 < 16
  {
  }

  /** A 16-bit number from its four hexadecimal digits. */
  lemma Nibbles(n: nat)
    requires n < 0x1_0000
    ensures 0 <= n / 0x1000 < 16 && n == n / 0x1000 * 0x1000 + n / 0x100 % 16 * 0x100 + n / 16 % 16 * 16 + n % 16
  {
    var b, c := n / 16, n / 0x100;
    assert b / 16 == c && c / 16 == n / 0x1000;
    Split(n);
    Split(b);
    Split(c);
  }

  lemma Hex4Reads(n: nat, rest: Text)
    requires n < 0x1_0000
    ensures ReadHex4(Hex4(n) + rest) == Some(n)
  {
    hide HexDigit, DigitValue;
    Nibbles(n);
    DigitReads(n / 0x1000);
    DigitReads(n / 0x100 % 16);
    DigitReads(n / 16 % 16);
    DigitReads(n % 16);
  }

  /** Whatever follows, a chunk reads back as its unit. */
  lemma ChunkReads(u: Unit, lone: bool, rest: Text)
    ensures HeadUnit(Chunk(u, lone) + rest) == Some((u, |Chunk(u, lone)|))
    ensures (Chunk(u, lone) + rest)[|Chunk(u, lone)|..] == rest
  {
    hide Hex4, ReadHex4;
    var c := Chunk(u, lone);
    if ShortEscape(u).Some? {
      assert ShortUnescape(ShortEscape(u).value) == Some(u);
    } else if u < 0x20 || lone {
      Hex4Reads(u, rest);
      assert (c + rest)[2..] == Hex4(u) + rest;
      assert (c + rest)[1] == 0x75;
    }
  }

  lemma {:induction false} UnescapeOfEscaped(s: Text, i: nat)
    requires i <= |s|
    ensures Unescape(EscapedFrom(s, i)) == Some(s[i..])
    decreases |s| - i
  {
    hide Chunk, HeadUnit;
    if i == |s| {
      assert s[i..] == [];
    } else {
      UnescapeOfEscaped(s, i + 1);
      ChunkReads(s[i], Lone(s, i), EscapedFrom(s, i + 1));
      assert s[i..] == [s[i]] + s[i + 1..];
    }
  }

  /** The scan for the closing quote steps over a chunk. */
  lemma ScanChunk(t: Text, j: nat, u: Unit, lone: bool)
    requires j + |Chunk(u, lone)| <= |t| && t[j..j + |Chunk(u, lone)|] == Chunk(u, lone)
    ensures ClosingQuote(t, j) == ClosingQuote(t, j + |Chunk(u, lone)|)
  {
    var c := Chunk(u, lone);
    forall k | 0 <= k < |c|
      ensures t[j + k] == c[k]
    {
      assert t[j..j + |c|][k] == t[j + k];
    }
    if ShortEscape(u).Some? {
    } else if u < 0x20 || lone {
      assert ClosingQuote(t, j) == ClosingQuote(t, j + 2);
      assert ClosingQuote(t, j + 2) == ClosingQuote(t, j + 3);
      assert ClosingQuote(t, j + 4) == ClosingQuote(t, j + 5);
    }
  }

  lemma {:induction false} ScanEscaped(s: Text, i: nat, t: Text, j: nat, rest: Text)
    requires i <= |s| && j <= |t| && t[j..] == EscapedFrom(s, i) + ([QUOTE] + rest)
    ensures ClosingQuote(t, j) == Ok(j + |EscapedFrom(s, i)|)
    decreases |s| - i
  {
    hide Chunk;
    if i == |s| {
      assert t[j..][0] == QUOTE;
    } else {
      var c, more := Chunk(s[i], Lone(s, i)), EscapedFrom(s, i + 1);
      assert t[j..] == c + (more + ([QUOTE] + rest));
      assert t[j..][..|c|] == c && t[j..][|c|..] == more + ([QUOTE] + rest);
      assert t[j..j + |c|] == c && t[j + |c|..] == more + ([QUOTE] + rest);
      ScanChunk(t, j, s[i], Lone(s, i));
      ScanEscaped(s, i + 1, t, j + |c|, rest);
    }
  }

  /** Text without escapes is its own contents. */
  lemma {:induction false} PlainUnescapes(raw: Text)
    requires BACKSLASH !in raw && Unescape(raw).Some?
    ensures Unescape(raw) == Some(raw)
    decreases |raw|
  {
    if raw != [] {
      assert raw[0] != BACKSLASH;
      PlainUnescapes(raw[1..]);
      assert raw == [raw[0]] + raw[1..];
    }
  }

  /** A written string reads back exactly, whatever follows it. */
  lemma QuotedReads(s: Text, rest: Text)
    ensures ReadString((Quoted(s) + rest)[1..]) == Ok(Literal(s, rest))
    ensures (Quoted(s) + rest)[0] == QUOTE
  {
    hide EscapedFrom, Unescape, ClosingQuote;
    var e := EscapedFrom(s, 0);
    var t := e + ([QUOTE] + rest);
    assert (Quoted(s) + rest)[1..] == t;
    ScanEscaped(s, 0, t, 0, rest);
    UnescapeOfEscaped(s, 0);
    assert s[0..] == s;
    assert t[..|e|] == e && t[|e| + 1..] == rest;
    if BACKSLASH !in e {
      PlainUnescapes(e);
    }
  }

  /** So string literals are a prefix code. */
  lemma QuotedPrefixFree(a: Text, ra: Text, b: Text, rb: Text)
    requires Quoted(a) + ra == Quoted(b) + rb
    ensures a == b && ra == rb
  {
    QuotedReads(a, ra);
    QuotedReads(b, rb);
  }
}
