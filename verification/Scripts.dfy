/** Push encodings, script numbers and standard scripts
    (state.ts:52-59, accepted.ts:17-44, builders.ts:12-15, covenant-id.ts). */
module Scripts {
  import opened Results
  import opened Bytes
  import opened Layout

  // ---------------------------------------------------------------- pushes

  function PushHeader(n: nat): Bytes
    requires n <= 0x7fff_ffff
  {
    if n <= 75 then [n]
    else if n <= 255 then [0x4c, n]
    else if n <= 65535 then [0x4d] + Le(n, 2)
    else [0x4e] + Le(n, 4)
  }

  function PushBytes(b: Bytes): Result<Bytes> {
    if |b| <= 0x7fff_ffff then Ok(PushHeader(|b|) + b) else Err(PUSH_LIMIT)
  }

  /** An item read at the head of a script, and the bytes it took. */
  datatype Push = Push(item: Bytes, size: nat)

  function Counted(b: Bytes, at: nat, n: nat): (r: Result<Push>)
    requires at <= |b|
    ensures r.Ok? ==> at <= r.value.size <= |b|
  {
    if at + n <= |b| then Ok(Push(b[at..at + n], at + n)) else Err(PUSH_TRUNCATED)
  }

  function FirstPush(b: Bytes): (r: Result<Push>)
    requires b != []
    ensures r.Ok? ==> 0 < r.value.size <= |b|
  {
    var op := b[0];
    if op == 0 then Ok(Push([], 1))
    else if op == 0x4f then Ok(Push([0x81], 1))
    else if 0x51 <= op <= 0x60 then Ok(Push([op - 0x50], 1))
    else if op <= 75 then Counted(b, 1, op)
    else if !(0x4c <= op <= 0x4e) then Err(NON_PUSH_WITNESS)
    else
      var width := if op == 0x4c then 1 else if op == 0x4d then 2 else 4;
      if 1 + width > |b| then Err(PUSH_HEADER)
      else Counted(b, 1 + width, FromLe(b[1..1 + width]))
  }

  function Pushes(b: Bytes): Result<seq<Bytes>>
    decreases |b|
  {
    if b == [] then Ok([])
    else
      var p :- FirstPush(b);
      var rest :- Pushes(b[p.size..]);
      Ok([p.item] + rest)
  }

  function ScriptPushes(b: Bytes): Result<seq<Bytes>> {
    var _ :- Check(|b| <= 250000, WITNESS_SIZE);
    Pushes(b)
  }

  /** The source's pass over a witness, advancing an index and collecting items. */
  method ReadPushes(b: Bytes) returns (r: Result<seq<Bytes>>)
    ensures r == ScriptPushes(b)
  {
    if |b| > 250000 {
      return Err(WITNESS_SIZE);
    }
    hide FirstPush, Pushes;
    var out: seq<Bytes>, i := [], 0;
    assert b[0..] == b;
    NoItemsBefore(b);
    while i < |b|
      invariant 0 <= i <= |b|
      invariant After(out, Pushes(b[i..])) == Pushes(b)
    {
      var here := b[i..];
      match FirstPush(here) {
        case Err(e) =>
          PushesFails(out, here);
          return Err(e);
        case Ok(p) =>
          PushesNext(out, here);
          assert here[p.size..] == b[i + p.size..];
          out, i := out + [p.item], i + p.size;
      }
    }
    assert b[i..] == [];
    NoItemsAfter(out);
    r := Ok(out);
  }

  /** The items taken so far, then those of the rest. */
  ghost function After(out: seq<Bytes>, rest: Result<seq<Bytes>>): Result<seq<Bytes>> {
    match rest
    case Ok(items) => Ok(out + items)
    case Err(e) => Err(e)
  }

  lemma NoItemsBefore(b: Bytes)
    ensures After([], Pushes(b)) == Pushes(b)
  {
    hide Pushes;
    assert Pushes(b).Ok? ==> [] + Pushes(b).value == Pushes(b).value;
  }

  lemma NoItemsAfter(out: seq<Bytes>)
    ensures After(out, Pushes([])) == Ok(out)
  {
    assert out + [] == out;
  }

  lemma PushesFails(out: seq<Bytes>, here: Bytes)
    requires here != [] && FirstPush(here).Err?
    ensures After(out, Pushes(here)) == Err(FirstPush(here).code)
  {
    hide FirstPush;
  }

  lemma PushesNext(out: seq<Bytes>, here: Bytes)
    requires here != [] && FirstPush(here).Ok?
    ensures var p := FirstPush(here).value;
            After(out, Pushes(here)) == After(out + [p.item], Pushes(here[p.size..]))
  {
    hide FirstPush;
    var p := FirstPush(here).value;
    var tail := Pushes(here[p.size..]);
    assert tail.Ok? ==> out + ([p.item] + tail.value) == out + [p.item] + tail.value;
  }

  /** `chunk` is a self-delimiting encoding of `item`. */
  ghost predicate Encodes(chunk: Bytes, item: Bytes) {
    chunk != [] && forall rest: Bytes :: FirstPush(chunk + rest) == Ok(Push(item, |chunk|))
  }

  lemma PushBytesEncodes(b: Bytes)
    requires |b| <= 0x7fff_ffff
    ensures Encodes(PushBytes(b).value, b)
  {
    forall rest: Bytes
      ensures FirstPush(PushHeader(|b|) + b + rest) == Ok(Push(b, |PushHeader(|b|) + b|))
    {
      PushHeaderRead(b, rest);
    }
  }

  lemma PushHeaderRead(b: Bytes, rest: Bytes)
    requires |b| <= 0x7fff_ffff
    ensures FirstPush(PushHeader(|b|) + b + rest) == Ok(Push(b, |PushHeader(|b|) + b|))
  {
    var n, h := |b|, PushHeader(|b|);
    var s := h + b + rest;
    assert s[|h|..|h| + n] == b;
    Pow256Values();
    if n <= 75 {
    } else if n <= 255 {
      assert s[1..2] == [n] && FromLe([n]) == n + 256 * FromLe([]);
    } else if n <= 65535 {
      assert s[1..3] == Le(n, 2);
      FromLeOfLe(n, 2);
    } else {
      assert s[1..5] == Le(n, 4);
      FromLeOfLe(n, 4);
    }
  }

  /** Reading one encoded item off the front of a script. */
  lemma PushThen(chunk: Bytes, item: Bytes, rest: Bytes)
    requires Encodes(chunk, item)
    requires Pushes(rest).Ok?
    ensures Pushes(chunk + rest) == Ok([item] + Pushes(rest).value)
  {
    assert FirstPush(chunk + rest) == Ok(Push(item, |chunk|));
    assert (chunk + rest)[|chunk|..] == rest;
  }

  lemma FirstPushExtends(a: Bytes, b: Bytes)
    requires a != [] && FirstPush(a).Ok?
    ensures FirstPush(a + b) == FirstPush(a)
  {
    var op, c := a[0], a + b;
    var width := if op == 0x4c then 1 else if op == 0x4d then 2 else 4;
    if op == 0 || op == 0x4f || 0x51 <= op <= 0x60 {
    } else if op <= 75 {
      assert c[1..1 + op] == a[1..1 + op];
    } else {
      var n := FromLe(a[1..1 + width]);
      assert c[1..1 + width] == a[1..1 + width];
      assert c[1 + width..1 + width + n] == a[1 + width..1 + width + n];
    }
  }

  /** Witnesses concatenate. */
  lemma {:induction false} PushesAppend(a: Bytes, b: Bytes)
    requires Pushes(a).Ok? && Pushes(b).Ok?
    ensures Pushes(a + b) == Ok(Pushes(a).value + Pushes(b).value)
    decreases |a|
  {
    hide FirstPush;
    if a == [] {
      assert a + b == b;
      assert Pushes(a).value + Pushes(b).value == Pushes(b).value;
    } else {
      var f := FirstPush(a).value;
      FirstPushExtends(a, b);
      assert (a + b)[f.size..] == a[f.size..] + b;
      PushesAppend(a[f.size..], b);
      var rest := Pushes(a[f.size..]).value;
      assert [f.item] + (rest + Pushes(b).value) == [f.item] + rest + Pushes(b).value;
    }
  }

  lemma PushesOne(chunk: Bytes, item: Bytes)
    requires Encodes(chunk, item)
    ensures Pushes(chunk) == Ok([item])
  {
    PushThen(chunk, item, []);
    assert chunk + [] == chunk && [item] + [] == [item];
  }

  // ---------------------------------------------------------------- script numbers

  /** Base-256 digits without leading zeros, least significant first. */
  function Digits(n: nat): Bytes {
    if n == 0 then [] else [n % 256] + Digits(n / 256)
  }

  function Signed(a: Bytes): Bytes {
    if a != [] && a[|a| - 1] >= 128 then a + [0] else a
  }

  function PushInt(n: int): Result<Bytes> {
    var _ :- Check(0 <= n < 0x8000_0000_0000_0000, SCRIPT_NUMBER);
    if n == 0 then Ok([0])
    else if n <= 16 then Ok([0x50 + n])
    else PushBytes(Signed(Digits(n)))
  }

  method EncodeInt(n: int) returns (r: Result<Bytes>)
    ensures r == PushInt(n)
  {
    if !(0 <= n < 0x8000_0000_0000_0000) {
      return Err(SCRIPT_NUMBER);
    }
    if n == 0 {
      return Ok([0]);
    }
    if n <= 16 {
      return Ok([0x50 + n]);
    }
    LongInt(n);
    hide Digits, PushBytes, PushInt;
    var a := WriteDigits(n);
    if a[|a| - 1] >= 128 {
      a := a + [0];
    }
    r := PushBytes(a);
  }

  /** The digits that the shifting loop writes, least significant first. */
  method WriteDigits(n: nat) returns (a: Bytes)
    requires n > 0
    ensures a == Digits(n) && a != []
  {
    hide Digits;
    a := [];
    var rest := n;
    while rest > 0
      invariant a + Digits(rest) == Digits(n)
    {
      NextDigit(a, rest);
      a, rest := a + [rest % 256], rest / 256;
    }
    AllDigits(a, n);
  }

  lemma NextDigit(a: Bytes, rest: nat)
    requires rest > 0
    ensures rest / 256 < rest && a + Digits(rest) == a + [rest % 256] + Digits(rest / 256)
  {
    hide Digits;
    FirstDigit(rest);
    assert a + ([rest % 256] + Digits(rest / 256)) == a + [rest % 256] + Digits(rest / 256);
  }

  lemma FirstDigit(n: nat)
    requires n > 0
    ensures Digits(n) == [n % 256] + Digits(n / 256)
  {
  }

  lemma AllDigits(a: Bytes, n: nat)
    requires n > 0 && a + Digits(0) == Digits(n)
    ensures a == Digits(n) && a != []
  {
  }

  lemma LongInt(n: nat)
    requires 16 < n < 0x8000_0000_0000_0000
    ensures PushInt(n) == PushBytes(Signed(Digits(n)))
  {
    hide Digits, PushBytes, Signed;
  }

  function ScriptNumber(b: Bytes): Result<int> {
    var _ :- Check(|b| <= 8, SCRIPT_NUMBER_LENGTH);
    if b == [] then Ok(0)
    else
      var last := b[|b| - 1];
      var n: int := FromLe(b[|b| - 1 := last % 128]);
      Ok(if last >= 128 then -n else n)
  }

  /** The stack item that carries the number `n`. */
  function IntItem(n: nat): Bytes {
    if n == 0 then [] else if n <= 16 then [n] else Signed(Digits(n))
  }

  lemma {:induction false} FromLeOfDigits(n: nat)
    ensures FromLe(Digits(n)) == n
    ensures n > 0 ==> Digits(n) != [] && Digits(n)[|Digits(n)| - 1] != 0
  {
    if n > 0 {
      FromLeOfDigits(n / 256);
      assert Digits(n)[1..] == Digits(n / 256);
    }
  }

  lemma {:induction false} DigitsLength(n: nat, width: nat)
    requires n < Pow256(width)
    ensures |Digits(n)| <= width
  {
    if n > 0 {
      DigitsLength(n / 256, width - 1);
    }
  }

  lemma SignedDigits(n: nat)
    requires 0 < n < 0x8000_0000_0000_0000
    ensures var a := Signed(Digits(n));
            0 < |a| <= 8 && a[|a| - 1] < 128 && FromLe(a) == n
  {
    var d := Digits(n);
    FromLeOfDigits(n);
    Pow256Values();
    DigitsLength(n, 8);
    SignByte(d);
    FromLeConcat(d, [0]);
    assert FromLe([0]) == 0 + 256 * FromLe([]);
  }

  lemma IntItemIsNumber(n: nat)
    requires n < 0x8000_0000_0000_0000
    ensures ScriptNumber(IntItem(n)) == Ok(n)
    ensures |IntItem(n)| <= 8
  {
    if n == 0 {
    } else if n <= 16 {
      assert FromLe([n]) == n + 256 * FromLe([]);
      assert [n][0 := n % 128] == [n];
    } else {
      SignedDigits(n);
      var a := Signed(Digits(n));
      assert a[|a| - 1 := a[|a| - 1] % 128] == a;
    }
  }

  lemma PushIntEncodes(n: nat)
    requires n < 0x8000_0000_0000_0000
    ensures PushInt(n).Ok?
    ensures Encodes(PushInt(n).value, IntItem(n))
    ensures |PushInt(n).value| <= 9
  {
    if n > 16 {
      SignedDigits(n);
      PushBytesEncodes(Signed(Digits(n)));
    }
  }

  /** A stack item of up to eight bytes is a number by sign and magnitude: the top bit of its last byte is the sign, the other
      bits are the magnitude, least significant byte first. */
  lemma NumberIsSignMagnitude(b: Bytes)
    requires 0 < |b| <= 8
    ensures var sign := 128 * Pow256(|b| - 1);
            ScriptNumber(b) == Ok(if FromLe(b) < sign then FromLe(b) else sign - FromLe(b))
  {
    hide ScriptNumber, FromLe, Pow256;
    var last: nat := b[|b| - 1];
    SignByte(b);
    if last < 128 {
      Unsigned(b, last);
    } else {
      var lo := b[..|b| - 1];
      assert b == lo + [last];
      Negative(b, last);
      assert b[|b| - 1 := last - 128] == lo + [last - 128];
      TopByte(lo, last);
      TopByte(lo, last - 128);
      Less(Pow256(|lo|), last);
    }
  }

  lemma Unsigned(b: Bytes, last: nat)
    requires 0 < |b| <= 8 && b[|b| - 1] == last < 128
    ensures ScriptNumber(b) == Ok(FromLe(b))
  {
    hide FromLe;
    assert last % 128 == last;
    assert b[|b| - 1 := last] == b;
  }

  lemma Negative(b: Bytes, last: nat)
    requires 0 < |b| <= 8 && b[|b| - 1] == last && 128 <= last < 256
    ensures ScriptNumber(b) == Ok(-(FromLe(b[|b| - 1 := last - 128]) as int))
  {
    hide FromLe;
    assert last % 128 == last - 128;
  }

  lemma TopByte(lo: Bytes, x: Byte)
    ensures FromLe(lo + [x]) == FromLe(lo) + Pow256(|lo|) * x
  {
    hide FromLe, Pow256;
    FromLeConcat(lo, [x]);
    OneByte(x);
  }

  lemma OneByte(x: Byte)
    ensures FromLe([x]) == x
  {
    assert FromLe([x]) == x + 256 * FromLe([]);
  }

  lemma Less(p: nat, last: nat)
    requires 128 <= last < 256
    ensures p * (last - 128) == p * last - 128 * p
  {
  }

  /** The one-byte pushes of small numbers: opcode 0 for zero, and 0x50 away from the number for -1 and for 1 to 16. */
  lemma SmallNumberPushes(op: Byte, rest: Bytes)
    requires op == 0 || op == 0x4f || 0x51 <= op <= 0x60
    ensures var r := FirstPush([op] + rest);
            r.Ok? && r.value.size == 1 && ScriptNumber(r.value.item) == Ok(if op == 0 then 0 else op - 0x50)
  {
    hide ScriptNumber;
    if op == 0 {
      assert ScriptNumber([]) == Ok(0) by { NoNumber(); }
    } else {
      var item := FirstPush([op] + rest).value.item;
      NumberIsSignMagnitude(item);
      assert item[1..] == [] && FromLe(item) == item[0] + 256 * FromLe([]) && Pow256(0) == 1;
    }
  }

  lemma NoNumber()
    ensures ScriptNumber([]) == Ok(0)
  {
  }

  // ---------------------------------------------------------------- hashes and standard scripts

  type Digest = d: Bytes | |d| == 32 witness Zeros(32)

  const ZERO: Digest := Zeros(32)

  datatype Domain = MERGESET_CONTEXT | MERKLE_BRANCH | ACTIVE_NODE | ACTIVE_LEAF | COLLAPSED_NODE | ACTIVITY_ROOT
    | PAYLOAD_LEAF | PAYLOAD_DIGEST

  /** The hash functions in use: plain BLAKE2b, BLAKE2b keyed "CovenantID", BLAKE3, and BLAKE3 keyed by domain. */
  datatype Hashes = Hashes(
    blake2b: Bytes -> Digest,
    covenantId: Bytes -> Digest,
    blake3: Bytes -> Digest,
    domain: (Domain, Bytes) -> Digest)

  /** No other input has the hash of `x`. */
  ghost predicate Unmatched(h: Bytes -> Digest, x: Bytes) {
    forall y: Bytes :: h(y) == h(x) ==> y == x
  }

  datatype Outpoint = Outpoint(transactionId: Bytes, index: int)
  datatype Spk = Spk(version: int, script: Bytes)

  function P2sh(scriptHash: Digest): Spk {
    Spk(0, [0xaa, 0x20] + scriptHash + [0x87])
  }

  function P2pk(publicKey: Bytes): Spk {
    Spk(0, [0x20] + publicKey + [0xac])
  }

  lemma P2shInjective(a: Digest, b: Digest)
    requires P2sh(a) == P2sh(b)
    ensures a == b
  {
    assert P2sh(a).script[2..34] == a;
    assert P2sh(b).script[2..34] == b;
  }

  datatype AuthorizedOutput = AuthorizedOutput(index: int, value: int, spk: Spk)

  function AuthorizedBytes(o: AuthorizedOutput): Result<Bytes> {
    var _ :- Check(0 <= o.index <= 0xffff_ffff, INTEGER_RANGE);
    var value :- LeChecked(o.value, 8);
    var _ :- Check(0 <= o.spk.version <= 65535, INTEGER_RANGE);
    var _ :- Check(|o.spk.script| <= 1_000_000, PUSH_LIMIT);
    Ok(Le(o.index, 4) + value + Le(o.spk.version, 2) + Le(|o.spk.script|, 8) + o.spk.script)
  }

  /** The preimage of a covenant id that authorises a single output. */
  function CovenantPreimage(origin: Outpoint, output: AuthorizedOutput): Result<Bytes> {
    var _ :- Check(|origin.transactionId| == 32, BYTE_LENGTH);
    var _ :- Check(0 <= origin.index <= 0xffff_ffff, INTEGER_RANGE);
    var body :- AuthorizedBytes(output);
    Ok(origin.transactionId + Le(origin.index, 4) + Le(1, 8) + body)
  }

  function RootPreimage(h: Hashes, origin: Outpoint, genesisScript: Bytes): Bytes
    requires |origin.transactionId| == 32 && 0 <= origin.index <= 0xffff_ffff
  {
    origin.transactionId + Le(origin.index, 4) + Le(1, 8)
    + (Le(0, 4) + Le(DEPOSIT, 8) + Le(0, 2) + Le(35, 8) + P2sh(h.blake2b(genesisScript)).script)
  }

  function RootId(h: Hashes, origin: Outpoint, genesisScript: Bytes): Result<Digest> {
    var preimage :- CovenantPreimage(origin, AuthorizedOutput(0, DEPOSIT, P2sh(h.blake2b(genesisScript))));
    Ok(h.covenantId(preimage))
  }

  lemma RootIdHashesRootPreimage(h: Hashes, origin: Outpoint, genesisScript: Bytes)
    requires |origin.transactionId| == 32 && 0 <= origin.index <= 0xffff_ffff
    ensures RootId(h, origin, genesisScript) == Ok(h.covenantId(RootPreimage(h, origin, genesisScript)))
  {
    Pow256Values();
  }

  lemma OriginPart(h: Hashes, o: Outpoint, script: Bytes)
    requires |o.transactionId| == 32 && 0 <= o.index <= 0xffff_ffff
    ensures var b := RootPreimage(h, o, script);
            |b| >= 36 && b[..32] == o.transactionId && b[32..36] == Le(o.index, 4)
  {
    hide P2sh, Le;
  }

  /** A root preimage names its origin. */
  lemma RootPreimageNamesOrigin(h: Hashes, a: Outpoint, b: Outpoint, sa: Bytes, sb: Bytes)
    requires |a.transactionId| == |b.transactionId| == 32
    requires 0 <= a.index <= 0xffff_ffff && 0 <= b.index <= 0xffff_ffff
    requires RootPreimage(h, a, sa) == RootPreimage(h, b, sb)
    ensures a == b
  {
    hide P2sh, Le;
    OriginPart(h, a, sa);
    OriginPart(h, b, sb);
    Pow256Values();
    LeInjective(a.index, b.index, 4);
  }
}
