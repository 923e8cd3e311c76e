/** Addresses as text: encoding, decoding, and what a changed character does (scripts/wallet/address.mjs:33-67). */
module AddressText {
  import opened Results
  import opened Bytes
  import opened Scripts
  import opened Address

  datatype Decoded = Decoded(prefix: string, version: Byte, payload: Bytes)

  predicate KnownPrefix(prefix: string) {
    prefix == "kaspa" || prefix == "kaspatest"
  }

  function Text(digits: seq<Five>): (s: string)
    ensures |s| == |digits|
  {
    seq(|digits|, i requires 0 <= i < |digits| => CharOf(digits[i]))
  }

  /** The groups of version and payload, then those of their checksum. */
  function AllFives(version: Byte, payload: Bytes, prefix: string): seq<Five> {
    hide Number, ToFives, Octets, Checksum;
    var five := ToFives([version] + payload);
    five + ToFives(Octets(Number(Checksum(five, prefix)), 5))
  }

  function Body(version: Byte, payload: Bytes, prefix: string): string {
    Text(AllFives(version, payload, prefix))
  }

  function Encode(version: Byte, payload: Bytes, prefix: string): Result<string> {
    if !KnownPrefix(prefix) then Err(ADDRESS_PREFIX) else Ok(prefix + ":" + Body(version, payload, prefix))
  }

  /** Lower case of the ASCII letters. */
  function LowerChar(c: char): char {
    if 'A' <= c <= 'Z' then c - 'A' + 'a' else c
  }

  function UpperChar(c: char): char {
    if 'a' <= c <= 'z' then c - 'a' + 'A' else c
  }

  function Lower(s: string): (l: string)
    ensures |l| == |s|
  {
    seq(|s|, i requires 0 <= i < |s| => LowerChar(s[i]))
  }

  function Upper(s: string): (u: string)
    ensures |u| == |s|
  {
    seq(|s|, i requires 0 <= i < |s| => UpperChar(s[i]))
  }

  /** Where the first ':' is, or the end. */
  function Colon(s: string): (n: nat)
    ensures n <= |s| && (n < |s| ==> s[n] == ':') && forall i | 0 <= i < n :: s[i] != ':'
  {
    if s == [] || s[0] == ':' then 0 else
      var n := Colon(s[1..]);
      assert forall i | 1 <= i < n + 1 :: s[i] == s[1..][i - 1];
      n + 1
  }

  /** `lower.split(':')`, of which two segments are read: a third one is ignored. */
  function PrefixOf(s: string): string {
    s[..Colon(s)]
  }

  function BodyOf(s: string): Option<string> {
    if Colon(s) == |s| then None else
      var rest := s[Colon(s) + 1..];
      Some(rest[..Colon(rest)])
  }

  function Fives(body: string): (r: Result<seq<Five>>)
    ensures r.Ok? <==> forall i | 0 <= i < |body| :: FiveOf(body[i]).Some?
    ensures r.Ok? ==> |r.value| == |body| && forall i | 0 <= i < |body| :: FiveOf(body[i]) == Some(r.value[i])
    ensures r.Err? ==> r.code == ADDRESS_CHARACTER
  {
    hide FiveOf;
    if body == [] then Ok([]) else
      var n := |body| - 1;
      match FiveOf(body[n])
      case None => Err(ADDRESS_CHARACTER)
      case Some(d) =>
        var rest :- Fives(body[..n]);
        Ok(rest + [d])
  }

  /** The last eight groups against the checksum of the ones before. */
  predicate SumMatches(five: seq<Five>, prefix: string)
    requires |five| > 8
  {
    hide Number, Number8, FromFives, Checksum;
    Number(Checksum(five[..|five| - 8], prefix)) == Number8(FromFives(five[|five| - 8..]))
  }

  function Content(five: seq<Five>, prefix: string): Result<Decoded>
    requires |five| > 8
  {
    hide SumMatches, FromFives;
    var _ :- Check(SumMatches(five, prefix), ADDRESS_CHECKSUM);
    var bytes := FromFives(five[..|five| - 8]);
    var _ :- Check(|bytes| == 33 && (bytes[0] == 0 || bytes[0] == 8), ADDRESS_KIND);
    Ok(Decoded(prefix, bytes[0], bytes[1..]))
  }

  /** What is checked once the text is in lower case. */
  function DecodeLower(lower: string, expected: Option<string>): Result<Decoded> {
    hide Content;
    var prefix, body := PrefixOf(lower), BodyOf(lower);
    var _ :- Check(if expected.Some? && expected.value != "" then prefix == expected.value else KnownPrefix(prefix), ADDRESS_PREFIX);
    var _ :- Check(body.Some? && |body.value| > 8, ADDRESS_FORMAT);
    var five :- Fives(body.value);
    Content(five, prefix)
  }

  function Decode(address: string, expected: Option<string>): Result<Decoded> {
    var _ :- Check(|address| < 200, ADDRESS_FORMAT);
    var _ :- Check(Lower(address) == address || Upper(address) == address, ADDRESS_CASE);
    DecodeLower(Lower(address), expected)
  }

  // ---------------------------------------------------------------- round trip

  lemma {:induction false} NumberInjective(a: seq<Five>, b: seq<Five>)
    requires |a| == |b| && Number(a) == Number(b)
    ensures a == b
  {
    GroupsOfNumber(a);
    GroupsOfNumber(b);
  }

  predicate Quiet(c: char) {
    c != ':' && LowerChar(c) == c
  }

  lemma CharIsQuiet(d: Five)
    ensures Quiet(CharOf(d))
  {
  }

  lemma FivesOfText(digits: seq<Five>)
    ensures Fives(Text(digits)) == Ok(digits)
    ensures forall i | 0 <= i < |digits| :: Quiet(Text(digits)[i])
  {
    hide CharOf, LowFive, HighFive, FiveOf, Fives, Quiet;
    var t := Text(digits);
    forall i | 0 <= i < |digits|
      ensures FiveOf(t[i]) == Some(digits[i]) && Quiet(t[i])
    {
      assert t[i] == CharOf(digits[i]);
      CharReads(digits[i]);
      CharIsQuiet(digits[i]);
    }
    assert Fives(t).Ok?;
    assert Fives(t).value == digits;
  }

  /** A quiet body after a known prefix is its own lower case and splits where it was joined. */
  lemma Splits(prefix: string, body: string)
    requires KnownPrefix(prefix) && forall i | 0 <= i < |body| :: Quiet(body[i])
    ensures var a := prefix + ":" + body;
            Lower(a) == a && PrefixOf(a) == prefix && BodyOf(a) == Some(body)
  {
    hide Colon;
    var a := prefix + ":" + body;
    var n := |prefix|;
    assert a[n] == ':' && a[..n] == prefix && a[n + 1..] == body;
    assert forall i | 0 <= i < n :: prefix[i] != ':' && LowerChar(prefix[i]) == prefix[i];
    forall i | 0 <= i < |a|
      ensures LowerChar(a[i]) == a[i] && (i < n ==> a[i] != ':')
    {
      if i > n {
        assert a[i] == body[i - n - 1] && Quiet(body[i - n - 1]);
      } else if i < n {
        assert a[i] == prefix[i];
      }
    }
    assert Lower(a) == a;
    assert Colon(a) == n;
    assert Colon(body) == |body| by {
      assert Colon(body) < |body| ==> Quiet(body[Colon(body)]);
    }
    assert body[..|body|] == body;
  }

  /** An encoded address decodes to its inputs exactly when the version is 0 or 8 and the payload 32 bytes. */
  lemma RoundTrip(version: Byte, payload: Bytes, prefix: string, expected: Option<string>)
    requires KnownPrefix(prefix) && (expected == None || expected == Some(prefix))
    ensures var a := Encode(version, payload, prefix);
            && a.Ok?
            && (Decode(a.value, expected).Ok? <==> (version == 0 || version == 8) && |payload| == 32)
            && (Decode(a.value, expected).Ok? ==> Decode(a.value, expected).value == Decoded(prefix, version, payload))
  {
    hide Encode, Fives, Content, PrefixOf, BodyOf, Lower, Upper, AllFives, Text, KnownPrefix;
    EncodedReads(version, payload, prefix);
    ContentIs(version, payload, prefix);
    EncodedLength(version, payload, prefix);
  }

  /** The encoder knows two networks, and with no network named so does the decoder. */
  lemma PrefixExactly(version: Byte, payload: Bytes, prefix: string)
    ensures Encode(version, payload, prefix).Ok? <==> prefix == "kaspa" || prefix == "kaspatest"
    ensures forall a :: Decode(a, None).Ok? ==> Decode(a, None).value.prefix == "kaspa" || Decode(a, None).value.prefix == "kaspatest"
  {
    hide Body, Fives, SumMatches, FromFives, Lower, Upper, PrefixOf, BodyOf;
  }

  /** A network stands in the checksum as the places of its letters in the Latin alphabet. */
  lemma PrefixGroups(prefix: string)
    requires prefix == "kaspa" || prefix == "kaspatest"
    ensures forall i | 0 <= i < |prefix| :: 'a' <= prefix[i] <= 'z' && PrefixDigits(prefix)[i] == (prefix[i] as int - 96) as bv5
  {
    forall i | 0 <= i < |prefix|
      ensures prefix[i] as int % 32 == prefix[i] as int - 96 && 'a' <= prefix[i] <= 'z'
    {
    }
  }

  /** Whatever follows a second separator is ignored, as long as the whole text has fewer than 200 characters. */
  lemma TrailingIgnored(version: Byte, payload: Bytes, prefix: string, trailing: string, expected: Option<string>)
    requires KnownPrefix(prefix) && (version == 0 || version == 8) && |payload| == 32
    requires (expected == None || expected == Some(prefix)) && Lower(trailing) == trailing
    ensures var a := Encode(version, payload, prefix).value;
            Decode(a + ":" + trailing, expected).Ok? <==> |prefix| + 62 + 1 + |trailing| < 200
  {
    hide Encode, Fives, Content, PrefixOf, BodyOf, Lower, Upper, AllFives, Text, KnownPrefix, Quiet;
    var all := AllFives(version, payload, prefix);
    EncodedReads(version, payload, prefix);
    ContentIs(version, payload, prefix);
    EncodedLength(version, payload, prefix);
    FivesOfText(all);
    TrailingSplits(prefix, Text(all), trailing);
    assert |Text(all)| == 61;
  }

  lemma ColonAt(s: string, n: nat)
    requires n < |s| && s[n] == ':' && forall i | 0 <= i < n :: s[i] != ':'
    ensures Colon(s) == n
  {
    hide Colon;
  }

  lemma PrefixQuiet(prefix: string)
    requires KnownPrefix(prefix)
    ensures forall i | 0 <= i < |prefix| :: Quiet(prefix[i])
  {
  }

  lemma TrailingSplits(prefix: string, body: string, trailing: string)
    requires KnownPrefix(prefix) && (forall i | 0 <= i < |body| :: Quiet(body[i])) && Lower(trailing) == trailing
    ensures var b := prefix + ":" + body + ":" + trailing;
            Lower(b) == b && PrefixOf(b) == prefix && BodyOf(b) == Some(body)
  {
    hide Colon, Quiet, Lower, KnownPrefix;
    var b, n := prefix + ":" + body + ":" + trailing, |prefix|;
    PrefixQuiet(prefix);
    LowerJoined(prefix, body, trailing);
    assert Colon(b) == n by {
      assert forall i | 0 <= i < n :: b[i] == prefix[i] && Quiet(prefix[i]);
      QuietHasNone(prefix);
      ColonAt(b, n);
    }
    var after := b[n + 1..];
    assert after == body + (":" + trailing);
    assert Colon(after) == |body| by {
      QuietHasNone(body);
      assert forall i | 0 <= i < |body| :: after[i] == body[i];
      ColonAt(after, |body|);
    }
    assert after[..|body|] == body && b[..n] == prefix;
  }

  lemma QuietHasNone(s: string)
    requires forall i | 0 <= i < |s| :: Quiet(s[i])
    ensures forall i | 0 <= i < |s| :: s[i] != ':' && LowerChar(s[i]) == s[i]
  {
  }

  lemma LowerJoined(prefix: string, body: string, trailing: string)
    requires forall i | 0 <= i < |prefix| :: Quiet(prefix[i])
    requires (forall i | 0 <= i < |body| :: Quiet(body[i])) && Lower(trailing) == trailing
    ensures var b := prefix + ":" + body + ":" + trailing; Lower(b) == b
  {
    hide Quiet, LowerChar;
    var b := prefix + ":" + body + ":" + trailing;
    QuietHasNone(prefix);
    QuietHasNone(body);
    assert LowerChar(':') == ':' by { ColonIsLower(); }
    forall i | 0 <= i < |b|
      ensures LowerChar(b[i]) == b[i]
    {
      if i < |prefix| {
        assert b[i] == prefix[i];
      } else if |prefix| < i <= |prefix| + |body| {
        assert b[i] == body[i - |prefix| - 1];
      } else if i > |prefix| + |body| + 1 {
        assert b[i] == trailing[i - |prefix| - |body| - 2] == Lower(trailing)[i - |prefix| - |body| - 2];
      }
    }
  }

  lemma ColonIsLower()
    ensures LowerChar(':') == ':'
  {
  }

  /** How an encoded address is read: its lower case, its segments and its groups. */
  lemma EncodedReads(version: Byte, payload: Bytes, prefix: string)
    requires KnownPrefix(prefix)
    ensures var a, all := Encode(version, payload, prefix), AllFives(version, payload, prefix);
            && a == Ok(prefix + ":" + Text(all)) && Lower(a.value) == a.value && PrefixOf(a.value) == prefix
            && BodyOf(a.value) == Some(Text(all)) && Fives(Text(all)) == Ok(all)
  {
    hide Quiet, Fives, PrefixOf, BodyOf, Lower, AllFives, Text, KnownPrefix;
    var all := AllFives(version, payload, prefix);
    FivesOfText(all);
    Splits(prefix, Text(all));
  }

  lemma EncodedLength(version: Byte, payload: Bytes, prefix: string)
    requires KnownPrefix(prefix)
    ensures |payload| == 32 ==> |AllFives(version, payload, prefix)| == 61
    ensures 0 < |prefix| <= 9
  {
    hide Octets, ToFives, Number, Checksum, SumMatches;
    GroupCount(|payload| + 1);
    SumFollows(ToFives([version] + payload), prefix);
  }

  lemma GroupCount(n: nat)
    ensures n == 33 <==> (8 * n + Padding(n)) / 5 == 53
    ensures n == 33 ==> (8 * n + Padding(n)) % 5 == 0
    ensures n > 0 ==> (8 * n + Padding(n)) / 5 >= 2
  {
  }

  lemma SumFollows(five: seq<Five>, prefix: string)
    requires |five| > 0
    ensures var sum := ToFives(Octets(Number(Checksum(five, prefix)), 5));
            |sum| == 8 && SumMatches(five + sum, prefix)
  {
    hide Number, Number8, FromFives, ToFives, Octets, Checksum;
    var c := Checksum(five, prefix);
    SumRoundTrip(c);
    var all := five + c;
    assert all[..|all| - 8] == five && all[|all| - 8..] == c;
  }

  lemma ContentIs(version: Byte, payload: Bytes, prefix: string)
    ensures var all := AllFives(version, payload, prefix);
            && |all| > 8
            && (Content(all, prefix).Ok? <==> (version == 0 || version == 8) && |payload| == 32)
            && (Content(all, prefix).Ok? ==> Content(all, prefix).value == Decoded(prefix, version, payload))
  {
    hide Number, FromFives, ToFives, Octets, Checksum, SumMatches;
    var bytes := [version] + payload;
    var five := ToFives(bytes);
    var all := five + ToFives(Octets(Number(Checksum(five, prefix)), 5));
    SumFollows(five, prefix);
    BytesRoundTrip(bytes);
    assert all[..|all| - 8] == five;
    assert bytes[1..] == payload;
  }

  // ---------------------------------------------------------------- a changed character

  /** Two texts that differ at place `k` alone. */
  predicate DifferAt<T(==)>(a: seq<T>, b: seq<T>, k: nat) {
    |a| == |b| && k < |a| && a[k] != b[k] && a[..k] == b[..k] && a[k + 1..] == b[k + 1..]
  }

  /** Groups with a matching checksum that differ in one place do not both match. */
  lemma OneGroupShows(a: seq<Five>, b: seq<Five>, k: nat, prefix: string)
    requires |a| > 8 && DifferAt(a, b, k)
    ensures !(SumMatches(a, prefix) && SumMatches(b, prefix))
  {
    hide Number, Number8, FromFives, Checksum;
    var n := |a| - 8;
    var sumA: Poly, sumB: Poly := a[n..], b[n..];
    SumRoundTrip(sumA);
    SumRoundTrip(sumB);
    if k < n {
      forall i | k < i < |a|
        ensures a[i] == b[i]
      {
        SameElsewhere(a, b, k, i);
      }
      assert sumA == sumB;
      assert a[..n][..k] == a[..k] && b[..n][..k] == b[..k];
      if Number(Checksum(a[..n], prefix)) == Number(Checksum(b[..n], prefix)) {
        NumberInjective(Checksum(a[..n], prefix), Checksum(b[..n], prefix));
        PayloadShows(a[..n], b[..n], k, prefix);
      }
    } else {
      assert a[..n] == a[..k][..n] && b[..n] == b[..k][..n];
      assert a[k] == sumA[k - n] && b[k] == sumB[k - n];
      if Number(sumA) == Number(sumB) {
        NumberInjective(sumA, sumB);
      }
    }
  }

  lemma Rebracket(p: seq<Five>, l: seq<Five>, d: Five, r: seq<Five>, z: seq<Five>)
    ensures p + ([0] + (l + ([d] + r) + z)) == p + ([0] + l) + ([d] + (r + z))
  {
  }

  lemma PayloadShows(a: seq<Five>, b: seq<Five>, k: nat, prefix: string)
    requires |a| == |b| && k < |a| && a[..k] == b[..k] && (forall i | k < i < |a| :: a[i] == b[i])
    requires Checksum(a, prefix) == Checksum(b, prefix)
    ensures a[k] == b[k]
  {
    hide Polymod;
    var head := PrefixDigits(prefix) + ([0] + a[..k]);
    var tail := a[k + 1..] + [0, 0, 0, 0, 0, 0, 0, 0];
    assert a[k + 1..] == b[k + 1..];
    assert a == a[..k] + ([a[k]] + a[k + 1..]) && b == a[..k] + ([b[k]] + a[k + 1..]);
    Rebracket(PrefixDigits(prefix), a[..k], a[k], a[k + 1..], [0, 0, 0, 0, 0, 0, 0, 0]);
    Rebracket(PrefixDigits(prefix), a[..k], b[k], a[k + 1..], [0, 0, 0, 0, 0, 0, 0, 0]);
    OneDigitShows(head, a[k], b[k], tail);
  }

  /** Groups of bodies that differ at one place differ there alone. */
  lemma FivesDiffer(a: string, b: string, k: nat)
    requires DifferAt(a, b, k) && Fives(a).Ok? && Fives(b).Ok?
    ensures DifferAt(Fives(a).value, Fives(b).value, k)
  {
    hide FiveOf, CharOf, Fives;
    var x, y := Fives(a).value, Fives(b).value;
    CharIsOnly(a[k]);
    CharIsOnly(b[k]);
    forall i | 0 <= i < |a| && i != k
      ensures x[i] == y[i]
    {
      assert a[i] == b[i] by { SameElsewhere(a, b, k, i); }
      assert FiveOf(a[i]) == Some(x[i]) && FiveOf(b[i]) == Some(y[i]);
    }
  }

  lemma SameElsewhere<T>(a: seq<T>, b: seq<T>, k: nat, i: nat)
    requires DifferAt(a, b, k) && i < |a| && i != k
    ensures a[i] == b[i]
  {
    if i < k {
      assert a[i] == a[..k][i] && b[i] == b[..k][i];
    } else {
      assert a[i] == a[k + 1..][i - k - 1] && b[i] == b[k + 1..][i - k - 1];
    }
  }

  /** Place `k` is in the second segment. */
  predicate InBody(s: string, k: nat) {
    var n := Colon(s);
    n < k < |s| && k <= n + Colon(s[n + 1..])
  }

  /** Texts that differ at one place, no separator on either side, have their first separator in one place. */
  lemma SameColon(a: string, b: string, k: nat)
    requires DifferAt(a, b, k) && a[k] != ':' && b[k] != ':'
    ensures Colon(a) == Colon(b)
  {
    hide Colon, DifferAt;
    Elsewhere(a, b, k);
    var m, n := Colon(a), Colon(b);
    assert m < |a| ==> b[m] == ':';
    assert n < |b| ==> a[n] == ':';
  }

  lemma Elsewhere<T>(a: seq<T>, b: seq<T>, k: nat)
    requires DifferAt(a, b, k)
    ensures |a| == |b| && k < |a| && a[k] != b[k] && forall i | 0 <= i < |a| && i != k :: a[i] == b[i]
  {
    hide DifferAt;
    assert |a| == |b| && k < |a| && a[k] != b[k] by { Lengths(a, b, k); }
    forall i | 0 <= i < |a| && i != k
      ensures a[i] == b[i]
    {
      SameElsewhere(a, b, k, i);
    }
  }

  lemma Lengths<T>(a: seq<T>, b: seq<T>, k: nat)
    requires DifferAt(a, b, k)
    ensures |a| == |b| && k < |a| && a[k] != b[k]
  {
  }

  lemma DropBoth<T>(a: seq<T>, b: seq<T>, k: nat, n: nat)
    requires DifferAt(a, b, k) && n <= k
    ensures DifferAt(a[n..], b[n..], k - n)
  {
    assert a[n..][..k - n] == a[..k][n..] && b[n..][..k - n] == b[..k][n..];
    assert a[n..][k - n + 1..] == a[k + 1..] && b[n..][k - n + 1..] == b[k + 1..];
  }

  lemma TakeBoth<T>(a: seq<T>, b: seq<T>, k: nat, n: nat)
    requires DifferAt(a, b, k) && k < n <= |a|
    ensures DifferAt(a[..n], b[..n], k)
  {
    assert a[..n][..k] == a[..k] && b[..n][..k] == b[..k];
    assert a[..n][k + 1..] == a[k + 1..][..n - k - 1] && b[..n][k + 1..] == b[k + 1..][..n - k - 1];
  }

  lemma SegmentsDiffer(a: string, b: string, k: nat)
    requires DifferAt(a, b, k) && InBody(a, k) && b[k] != ':'
    ensures Colon(a) < k && PrefixOf(a) == PrefixOf(b) && BodyOf(a).Some? && BodyOf(b).Some?
    ensures DifferAt(BodyOf(a).value, BodyOf(b).value, k - Colon(a) - 1)
  {
    hide Colon, DifferAt;
    Lengths(a, b, k);
    BodyChar(a, k);
    var n := Colon(a);
    var x, y := a[n + 1..], b[n + 1..];
    var j := k - n - 1;
    SameColon(a, b, k);
    SamePrefix(a, b, k, n);
    DropBoth(a, b, k, n + 1);
    assert x[j] == a[k] && y[j] == b[k];
    SameColon(x, y, j);
    TakeBoth(x, y, j, Colon(x));
  }

  lemma BodyChar(s: string, k: nat)
    requires InBody(s, k)
    ensures Colon(s) < k < |s| && s[k] != ':' && k - Colon(s) - 1 < Colon(s[Colon(s) + 1..])
  {
    hide Colon;
    var n := Colon(s);
    assert s[n + 1..][k - n - 1] == s[k];
  }

  lemma SamePrefix<T>(a: seq<T>, b: seq<T>, k: nat, n: nat)
    requires DifferAt(a, b, k) && n <= k
    ensures a[..n] == b[..n]
  {
    assert a[..n] == a[..k][..n] && b[..n] == b[..k][..n];
  }

  lemma LowerDiffers(a: string, b: string, k: nat)
    requires DifferAt(a, b, k) && LowerChar(a[k]) != LowerChar(b[k])
    ensures DifferAt(Lower(a), Lower(b), k)
  {
    var x, y := Lower(a), Lower(b);
    Elsewhere(a, b, k);
  }

  lemma LowerSeparates(s: string, k: nat)
    requires k < |s| && s[k] != ':'
    ensures Lower(s)[k] != ':'
  {
  }

  /** Changing one body character of a valid address, other than in case alone and not into the separator,
      makes it invalid. */
  lemma OneCharacterShows(a: string, b: string, k: nat, expected: Option<string>)
    requires Decode(a, expected).Ok?
    requires DifferAt(a, b, k) && LowerChar(a[k]) != LowerChar(b[k]) && b[k] != ':'
    requires InBody(Lower(a), k)
    ensures Decode(b, expected).Err?
  {
    hide DecodeLower, Colon, Lower, Upper, InBody, DifferAt;
    Lengths(a, b, k);
    LowerDiffers(a, b, k);
    LowerSeparates(b, k);
    LowerShows(Lower(a), Lower(b), k, expected);
  }

  lemma LowerRead(x: string, expected: Option<string>)
    requires DecodeLower(x, expected).Ok?
    ensures BodyOf(x).Some? && |BodyOf(x).value| > 8 && Fives(BodyOf(x).value).Ok?
    ensures SumMatches(Fives(BodyOf(x).value).value, PrefixOf(x))
  {
    hide Fives, PrefixOf, BodyOf, SumMatches, FromFives;
  }

  lemma LowerShows(x: string, y: string, k: nat, expected: Option<string>)
    requires DifferAt(x, y, k) && InBody(x, k) && y[k] != ':'
    requires DecodeLower(x, expected).Ok?
    ensures DecodeLower(y, expected).Err?
  {
    hide Colon, Fives, PrefixOf, BodyOf, InBody, DifferAt, SumMatches, DecodeLower;
    SegmentsDiffer(x, y, k);
    LowerRead(x, expected);
    var p, q := BodyOf(x).value, BodyOf(y).value;
    var j := k - Colon(x) - 1;
    if DecodeLower(y, expected).Ok? {
      LowerRead(y, expected);
      FivesDiffer(p, q, j);
      OneGroupShows(Fives(p).value, Fives(q).value, j, PrefixOf(x));
    }
  }

  // ---------------------------------------------------------------- a change in case alone

  predicate Letter(c: char) {
    LowerChar(c) != UpperChar(c)
  }

  predicate OneCase(s: string) {
    Lower(s) == s || Upper(s) == s
  }

  lemma Cases(c: char)
    ensures !Letter(c) ==> LowerChar(c) == c == UpperChar(c)
    ensures Letter(c) ==> (LowerChar(c) == c || UpperChar(c) == c) && !(LowerChar(c) == c && UpperChar(c) == c)
  {
  }

  /** Two characters that differ in case alone are one letter's two cases. */
  lemma OtherCase(c: char, d: char)
    requires c != d && LowerChar(c) == LowerChar(d)
    ensures Letter(c) && Letter(d) && (LowerChar(c) == c <==> UpperChar(d) == d) && (UpperChar(c) == c <==> LowerChar(d) == d)
  {
  }

  lemma LowerSame(a: string, b: string, k: nat)
    requires DifferAt(a, b, k) && LowerChar(a[k]) == LowerChar(b[k])
    ensures Lower(a) == Lower(b)
  {
    Elsewhere(a, b, k);
  }

  /** Changing the case of one character leaves a text in one case exactly when it has no other letter. */
  lemma CaseKept(a: string, b: string, k: nat)
    requires OneCase(a) && DifferAt(a, b, k) && LowerChar(a[k]) == LowerChar(b[k])
    ensures OneCase(b) <==> forall j | 0 <= j < |a| && j != k :: !Letter(a[j])
  {
    hide DifferAt, LowerChar, UpperChar;
    Elsewhere(a, b, k);
    OtherCase(a[k], b[k]);
    forall j | 0 <= j < |a|
      ensures !Letter(a[j]) ==> LowerChar(a[j]) == a[j] == UpperChar(a[j])
      ensures Letter(a[j]) ==> !(LowerChar(a[j]) == a[j] && UpperChar(a[j]) == a[j])
    {
      Cases(a[j]);
    }
    Cases(b[k]);
    assert Lower(b)[k] == LowerChar(b[k]) && Upper(b)[k] == UpperChar(b[k]);
    assert Lower(a)[k] == LowerChar(a[k]) && Upper(a)[k] == UpperChar(a[k]);
    if j :| 0 <= j < |a| && j != k && Letter(a[j]) {
      assert Lower(b)[j] == LowerChar(a[j]) && Upper(b)[j] == UpperChar(a[j]);
      assert Lower(a)[j] == LowerChar(a[j]) && Upper(a)[j] == UpperChar(a[j]);
    } else {
      forall i | 0 <= i < |b| && i != k
        ensures Lower(b)[i] == b[i] && Upper(b)[i] == b[i]
      {
      }
      assert LowerChar(b[k]) == b[k] ==> Lower(b) == b;
      assert UpperChar(b[k]) == b[k] ==> Upper(b) == b;
    }
  }

  /** Changing one character of a decodable address in case alone makes it undecodable exactly when another letter fixes the
      case; otherwise the address decodes to the same. */
  lemma CaseShows(a: string, b: string, k: nat, expected: Option<string>)
    requires Decode(a, expected).Ok? && DifferAt(a, b, k) && LowerChar(a[k]) == LowerChar(b[k])
    ensures Decode(b, expected).Err? <==> exists j :: 0 <= j < |a| && j != k && Letter(a[j])
    ensures Decode(b, expected).Ok? ==> Decode(b, expected) == Decode(a, expected)
  {
    hide DecodeLower, Lower, Upper, Letter, LowerChar, DifferAt;
    Lengths(a, b, k);
    LowerSame(a, b, k);
    CaseKept(a, b, k);
  }

  lemma KnownLetter(lower: string)
    requires KnownPrefix(PrefixOf(lower))
    ensures |lower| > 0 && Colon(lower) > 0 && lower[0] == 'k'
  {
    hide Colon;
    assert lower[0] == PrefixOf(lower)[0];
  }

  /** In an address of a known network, changing any body character to anything but a separator makes it undecodable. */
  lemma AnyCharacterShows(a: string, b: string, k: nat, expected: Option<string>)
    requires Decode(a, expected).Ok? && (expected == None || KnownPrefix(expected.value))
    requires DifferAt(a, b, k) && InBody(Lower(a), k) && b[k] != ':'
    ensures Decode(b, expected).Err?
  {
    hide DecodeLower, InBody, DifferAt, Upper, Lower, Colon;
    Lengths(a, b, k);
    if LowerChar(a[k]) != LowerChar(b[k]) {
      OneCharacterShows(a, b, k, expected);
    } else {
      CaseShows(a, b, k, expected);
      PrefixKnown(Lower(a), expected);
      KnownLetter(Lower(a));
      BodyChar(Lower(a), k);
      FirstLetter(a);
    }
  }

  lemma FirstLetter(a: string)
    requires |a| > 0 && Lower(a)[0] == 'k'
    ensures Letter(a[0])
  {
  }

  lemma PrefixKnown(lower: string, expected: Option<string>)
    requires DecodeLower(lower, expected).Ok? && (expected == None || KnownPrefix(expected.value))
    ensures KnownPrefix(PrefixOf(lower))
  {
    hide PrefixOf, BodyOf, Fives, Content;
  }

  // ---------------------------------------------------------------- a change into the separator

  /** The body of a decodable text has 61 characters, or 62 of which the last payload group fills no byte. */
  lemma BodyLength(lower: string, expected: Option<string>)
    requires DecodeLower(lower, expected).Ok?
    ensures BodyOf(lower).Some? && |BodyOf(lower).value| in {61, 62}
  {
    hide PrefixOf, BodyOf, Fives, SumMatches, FromFives;
    GroupsOf33(|BodyOf(lower).value| - 8);
  }

  lemma GroupsOf33(n: nat)
    requires 5 * n / 8 == 33
    ensures n in {53, 54}
  {
  }

  /** A separator put into the body cuts it off there. */
  lemma CutBody(a: string, b: string, k: nat)
    requires DifferAt(a, b, k) && InBody(a, k) && b[k] == ':'
    ensures Colon(a) < k && BodyOf(b).Some? && |BodyOf(b).value| == k - Colon(a) - 1
  {
    hide Colon, DifferAt;
    Elsewhere(a, b, k);
    BodyChar(a, k);
    var n := Colon(a);
    assert b[n] == ':' && forall i | 0 <= i < n :: b[i] != ':';
    assert Colon(b) == n;
    var x, y := a[n + 1..], b[n + 1..];
    assert y[k - n - 1] == ':';
    forall i | 0 <= i < k - n - 1
      ensures y[i] != ':'
    {
      assert y[i] == b[n + 1 + i] == a[n + 1 + i] == x[i];
    }
  }

  /** A separator in place of a body character makes an address of 61 body characters undecodable. */
  lemma SeparatorShows(a: string, b: string, k: nat, expected: Option<string>)
    requires Decode(a, expected).Ok? && DifferAt(a, b, k) && InBody(Lower(a), k) && b[k] == ':'
    requires BodyOf(Lower(a)).Some? && |BodyOf(Lower(a)).value| == 61
    ensures Decode(b, expected).Err?
  {
    hide DecodeLower, InBody, DifferAt, Upper, Colon, BodyOf, LowerChar;
    Lengths(a, b, k);
    BodyChar(Lower(a), k);
    NotSeparator(a, k);
    LowerDiffers(a, b, k);
    LowerSeparator(b, k);
    CutBody(Lower(a), Lower(b), k);
    InSixtyOne(Lower(a), k);
    if DecodeLower(Lower(b), expected).Ok? {
      BodyLength(Lower(b), expected);
    }
  }

  lemma NotSeparator(a: string, k: nat)
    requires k < |a| && Lower(a)[k] != ':'
    ensures LowerChar(a[k]) != LowerChar(':')
  {
  }

  lemma LowerSeparator(s: string, k: nat)
    requires k < |s| && s[k] == ':'
    ensures Lower(s)[k] == ':'
  {
  }

  lemma InSixtyOne(s: string, k: nat)
    requires InBody(s, k) && BodyOf(s).Some? && |BodyOf(s).value| == 61
    ensures k - Colon(s) - 1 < 61
  {
    hide Colon;
    BodyChar(s, k);
  }

  /** Where the body of an encoded address lies. */
  lemma EncodedBody(version: Byte, payload: Bytes, prefix: string, k: nat)
    requires KnownPrefix(prefix) && |payload| == 32
    ensures var a := Encode(version, payload, prefix).value;
            && Lower(a) == a && BodyOf(a).Some? && |BodyOf(a).value| == 61 && |a| == |prefix| + 62
            && (|prefix| < k < |a| ==> InBody(a, k))
  {
    hide Colon, Lower, AllFives, Quiet;
    var all := AllFives(version, payload, prefix);
    FivesOfText(all);
    EncodedLength(version, payload, prefix);
    Splits(prefix, Text(all));
    SplitPlace(prefix, Text(all), k);
  }

  lemma SplitPlace(prefix: string, body: string, k: nat)
    requires KnownPrefix(prefix) && forall i | 0 <= i < |body| :: Quiet(body[i])
    ensures var a := prefix + ":" + body; |prefix| < k < |a| ==> InBody(a, k)
  {
    hide Colon;
    var a := prefix + ":" + body;
    Splits(prefix, body);
    assert a[..Colon(a)] == prefix && a[Colon(a) + 1..] == body;
    assert forall i | 0 <= i < |body| :: body[i] != ':';
  }

  /** In an encoded address, changing any one character after the prefix to any other is always noticed. */
  lemma EncodedCharacterShows(version: Byte, payload: Bytes, prefix: string, b: string, k: nat, expected: Option<string>)
    requires KnownPrefix(prefix) && (version == 0 || version == 8) && |payload| == 32
    requires expected == None || expected == Some(prefix)
    requires k > |prefix| && DifferAt(Encode(version, payload, prefix).value, b, k)
    ensures Decode(b, expected).Err?
  {
    hide Decode, DifferAt, InBody, Body, Lower;
    var a := Encode(version, payload, prefix).value;
    Lengths(a, b, k);
    RoundTrip(version, payload, prefix, expected);
    EncodedBody(version, payload, prefix, k);
    if b[k] == ':' {
      SeparatorShows(a, b, k, expected);
    } else {
      AnyCharacterShows(a, b, k, expected);
    }
  }

  // ---------------------------------------------------------------- addresses of scripts

  function ToSpk(address: string, expected: Option<string>): Result<Spk> {
    hide Decode;
    var d :- Decode(address, expected);
    Ok(if d.version == 0 then P2pk(d.payload) else Spk(0, [0xaa, 0x20] + d.payload + [0x87]))
  }

  /** The address of a standard script; none for any other, and an error for an unknown prefix. */
  function OfSpk(spk: Spk, prefix: string): Result<Option<string>> {
    hide Encode;
    var s := spk.script;
    if spk.version == 0 && |s| == 34 && s[0] == 0x20 && s[33] == 0xac then
      var a :- Encode(0, s[1..33], prefix);
      Ok(Some(a))
    else if spk.version == 0 && |s| == 35 && s[0] == 0xaa && s[1] == 0x20 && s[34] == 0x87 then
      var a :- Encode(8, s[2..34], prefix);
      Ok(Some(a))
    else Ok(None)
  }

  /** Every script that has an address is the script of that address. */
  lemma ScriptRoundTrip(spk: Spk, prefix: string)
    requires KnownPrefix(prefix)
    ensures OfSpk(spk, prefix).Ok?
    ensures OfSpk(spk, prefix).value.Some? ==> ToSpk(OfSpk(spk, prefix).value.value, Some(prefix)) == Ok(spk)
  {
    hide Decode, Body;
    var s := spk.script;
    if spk.version == 0 && |s| == 34 && s[0] == 0x20 && s[33] == 0xac {
      RoundTrip(0, s[1..33], prefix, Some(prefix));
      assert s == [0x20] + s[1..33] + [0xac];
    } else if spk.version == 0 && |s| == 35 && s[0] == 0xaa && s[1] == 0x20 && s[34] == 0x87 {
      RoundTrip(8, s[2..34], prefix, Some(prefix));
      assert s == [0xaa, 0x20] + s[2..34] + [0x87];
    }
  }
}
