/** The parser takes exactly the texts of the grammar, and yields what they stand for (scripts/chain/json.mjs:9-97). */
module JsonExact {
  import opened Results
  import opened JsonStrings
  import opened Json
  import opened JsonRoundTrip
  import opened JsonGrammar

  // ---------------------------------------------------------------- numbers

  lemma {:induction false} DecimalsNext(t: Text, d: Unit)
    requires AllDigits(t) && 0x30 <= d <= 0x39
    ensures AllDigits(t + [d]) && Decimals(t + [d]) == Decimals(t) * 10 + (d - 0x30)
  {
    if t == [] {
      assert [d][1..] == [] && t + [d] == [d];
      assert Pow10(0) == 1;
    } else {
      var x: nat := t[0] - 0x30;
      DecimalsNext(t[1..], d);
      assert (t + [d])[1..] == t[1..] + [d];
      assert Pow10(|t|) == 10 * Pow10(|t| - 1);
      Tenfold(x, Pow10(|t| - 1));
    }
  }

  lemma Tenfold(x: nat, p: nat)
    ensures x * (10 * p) == x * p * 10
  {
  }

  lemma {:induction false} DigitsAreDecimals(t: Text)
    requires AllDigits(t)
    ensures (forall k | 0 <= k < |t| :: IsDigit(t[k])) && DigitsValue(t) == Decimals(t)
  {
    if t != [] {
      var n := |t| - 1;
      DigitsAreDecimals(t[..n]);
      DecimalsNext(t[..n], t[n]);
      assert t == t[..n] + [t[n]];
    }
  }

  /** What may follow a document: nothing, a blank, a comma or a closing bracket. */
  predicate Ends(rest: Text) {
    rest == [] || IsSpace(rest[0]) || rest[0] == 0x2c || rest[0] == 0x5d || rest[0] == 0x7d
  }

  lemma HeadAt(t: Text, i: nat, tail: Text)
    requires i <= |t| && t[i..] == tail
    ensures At(t, i) == if tail == [] then None else Some(tail[0])
  {
    if tail != [] {
      assert t[i..][0] == t[i];
    }
  }

  lemma RunAt(t: Text, i: nat, digits: Text, tail: Text)
    requires i <= |t| && t[i..] == digits + tail && AllDigits(digits) && (tail != [] ==> !IsDigit(tail[0]))
    ensures DigitRun(t, i) == |digits| && i + |digits| <= |t| && t[i + |digits|..] == tail
  {
    assert t[i..][|digits|..] == tail;
    forall k | i <= k < i + |digits|
      ensures IsDigit(t[k])
    {
      assert t[i..][k - i] == digits[k - i];
    }
    if i + |digits| < |t| {
      assert t[i..][|digits|] == tail[0];
    }
    RunOfDigits(t, i, |digits|);
  }

  lemma FractionReads(t: Text, i: nat, f: Option<Text>, tail: Text)
    requires i <= |t| && t[i..] == FractionText(f) + tail && (f.Some? ==> f.value != [] && AllDigits(f.value))
    requires tail != [] ==> !IsDigit(tail[0]) && tail[0] != 0x2e
    ensures FractionEnd(t, i) == Ok(i + |FractionText(f)|) && i + |FractionText(f)| <= |t| && t[i + |FractionText(f)|..] == tail
  {
    hide DigitRun, FractionEnd, AllDigits;
    SuffixAfter(t, i, FractionText(f), tail);
    match f {
      case None =>
        assert FractionText(f) + tail == tail;
        NoFraction(t, i, tail);
      case Some(digits) =>
        assert FractionText(f) + tail == [0x2e] + (digits + tail);
        FractionRuns(t, i, digits, tail);
    }
  }

  lemma NoFraction(t: Text, i: nat, tail: Text)
    requires i <= |t| && t[i..] == tail && (tail != [] ==> tail[0] != 0x2e)
    ensures FractionEnd(t, i) == Ok(i)
  {
    HeadAt(t, i, tail);
  }

  lemma FractionRuns(t: Text, i: nat, digits: Text, tail: Text)
    requires i <= |t| && t[i..] == [0x2e] + (digits + tail) && digits != [] && AllDigits(digits)
    requires tail != [] ==> !IsDigit(tail[0])
    ensures FractionEnd(t, i) == Ok(i + 1 + |digits|)
  {
    hide DigitRun, AllDigits, At;
    LetterReads(t, i, 0x2e, digits + tail);
    RunAt(t, i + 1, digits, tail);
  }

  /** After a slice of a suffix comes the rest of it. */
  lemma SuffixAfter(t: Text, i: nat, a: Text, b: Text)
    requires i <= |t| && t[i..] == a + b
    ensures i + |a| <= |t| && t[i + |a|..] == b && t[i..i + |a|] == a
  {
    assert t[i..][|a|..] == b && t[i..][..|a|] == a;
  }

  lemma ExponentReads(t: Text, i: nat, e: Option<Exponent>, tail: Text)
    requires i <= |t| && t[i..] == ExponentText(e) + tail && (e.Some? ==> ExponentOk(e.value))
    requires tail != [] ==> !IsDigit(tail[0]) && tail[0] != 0x65 && tail[0] != 0x45
    ensures ExponentEnd(t, i) == Ok(i + |ExponentText(e)|) && i + |ExponentText(e)| <= |t| && t[i + |ExponentText(e)|..] == tail
  {
    hide DigitRun, AllDigits, ExponentEnd;
    SuffixAfter(t, i, ExponentText(e), tail);
    match e {
      case None =>
        assert ExponentText(e) + tail == tail;
        NoExponent(t, i, tail);
      case Some(x) =>
        Regrouped([x.letter], x.sign, x.digits, tail);
        ExponentRuns(t, i, x, tail);
    }
  }

  lemma Regrouped(a: Text, b: Text, c: Text, d: Text)
    ensures (a + (b + c)) + d == a + (b + (c + d))
  {
  }

  lemma NoExponent(t: Text, i: nat, tail: Text)
    requires i <= |t| && t[i..] == tail && (tail != [] ==> tail[0] != 0x65 && tail[0] != 0x45)
    ensures ExponentEnd(t, i) == Ok(i)
  {
    HeadAt(t, i, tail);
  }

  lemma ExponentRuns(t: Text, i: nat, x: Exponent, tail: Text)
    requires i <= |t| && t[i..] == [x.letter] + (x.sign + (x.digits + tail)) && ExponentOk(x)
    requires tail != [] ==> !IsDigit(tail[0])
    ensures ExponentEnd(t, i) == Ok(i + 1 + |x.sign| + |x.digits|)
  {
    hide DigitRun, AllDigits, At, ExponentEnd, ExponentOk;
    LetterReads(t, i, x.letter, x.sign + (x.digits + tail));
    SignReads(t, i + 1, x, tail);
    ExponentDigits(t, i + 1 + |x.sign|, x, tail);
    ExponentHere(t, i, x);
  }

  lemma LetterReads(t: Text, i: nat, letter: Unit, body: Text)
    requires i <= |t| && t[i..] == [letter] + body
    ensures At(t, i) == Some(letter) && i + 1 <= |t| && t[i + 1..] == body
  {
    SuffixAfter(t, i, [letter], body);
    HeadAt(t, i, [letter] + body);
  }

  lemma ExponentDigits(t: Text, i: nat, x: Exponent, tail: Text)
    requires i <= |t| && t[i..] == x.digits + tail && ExponentOk(x) && (tail != [] ==> !IsDigit(tail[0]))
    ensures DigitRun(t, i) == |x.digits| > 0
  {
    hide DigitRun;
    RunAt(t, i, x.digits, tail);
  }

  lemma ExponentHere(t: Text, i: nat, x: Exponent)
    requires ExponentOk(x) && At(t, i) == Some(x.letter) && i + 1 + |x.sign| <= |t|
    requires ((At(t, i + 1) == Some(0x2b) || At(t, i + 1) == Some(0x2d)) <==> |x.sign| == 1) && |x.sign| <= 1
    requires DigitRun(t, i + 1 + |x.sign|) == |x.digits| > 0
    ensures ExponentEnd(t, i) == Ok(i + 1 + |x.sign| + |x.digits|)
  {
    hide DigitRun, AllDigits, At;
  }

  /** The digits of an exponent start after its sign, if it has one. */
  lemma SignReads(t: Text, i: nat, x: Exponent, tail: Text)
    requires i <= |t| && t[i..] == x.sign + (x.digits + tail) && ExponentOk(x)
    ensures (At(t, i) == Some(0x2b) || At(t, i) == Some(0x2d)) <==> |x.sign| == 1
    ensures |x.sign| <= 1 && i + |x.sign| <= |t| && t[i + |x.sign|..] == x.digits + tail
  {
    SuffixAfter(t, i, x.sign, x.digits + tail);
    HeadAt(t, i, x.sign + (x.digits + tail));
    if x.sign == [] {
      assert x.sign + (x.digits + tail) == x.digits + tail;
      assert (x.digits + tail)[0] == x.digits[0];
    }
  }

  /** What follows the whole part of a numeral, and what follows its fraction. */
  function AfterWhole(n: Numeral, rest: Text): Text {
    FractionText(n.fraction) + AfterFraction(n, rest)
  }

  function AfterFraction(n: Numeral, rest: Text): Text {
    ExponentText(n.exponent) + rest
  }

  /** The parts of a numeral in front of what ends it. */
  lemma NumeralParts(n: Numeral, rest: Text)
    requires NumeralOk(n) && Ends(rest)
    ensures var t, sign := NumeralText(n) + rest, if n.negative then 1 else 0;
            var whole := sign + |n.whole|;
            && whole <= |NumeralText(n)| && SignLength(t) == sign && DigitRun(t, sign) == |n.whole| > 0
            && t[sign..whole] == n.whole
            && FractionEnd(t, whole) == Ok(whole + |FractionText(n.fraction)|)
            && ExponentEnd(t, whole + |FractionText(n.fraction)|) == Ok(|NumeralText(n)|)
  {
    hide DigitRun, FractionEnd, ExponentEnd, NumeralText, FractionText, ExponentText, SignLength, Ends, AllDigits, ExponentOk,
      AfterWhole, AfterFraction, NumeralOk;
    var t, sign := NumeralText(n) + rest, if n.negative then 1 else 0;
    NumeralSplits(n, rest);
    NoTail(n);
    PartsOf(n);
    WholeFirst(t, sign, n.whole, AfterWhole(n, rest));
    TailRead(n, rest, t, sign + |n.whole|);
  }

  /** The fraction and the exponent, where the whole part ends. */
  lemma TailRead(n: Numeral, rest: Text, t: Text, i: nat)
    requires NumeralOk(n) && Ends(rest) && i <= |t| && t[i..] == AfterWhole(n, rest)
    ensures i + |FractionText(n.fraction)| <= |t| && FractionEnd(t, i) == Ok(i + |FractionText(n.fraction)|)
    ensures ExponentEnd(t, i + |FractionText(n.fraction)|)
         == Ok(i + |FractionText(n.fraction)| + |ExponentText(n.exponent)|)
  {
    hide DigitRun, FractionEnd, ExponentEnd, NumeralText, FractionText, ExponentText, AllDigits, ExponentOk, NumeralOk, IsDigit, Ends;
    PartsOf(n);
    EndsNumber(rest);
    FractionTaken(n, rest, t, i);
    ExponentReads(t, i + |FractionText(n.fraction)|, n.exponent, rest);
  }

  lemma FractionTaken(n: Numeral, rest: Text, t: Text, i: nat)
    requires NumeralOk(n) && Ends(rest) && i <= |t| && t[i..] == AfterWhole(n, rest)
    ensures var j := i + |FractionText(n.fraction)|; j <= |t| && FractionEnd(t, i) == Ok(j) && t[j..] == AfterFraction(n, rest)
  {
    hide DigitRun, FractionEnd, NumeralText, FractionText, ExponentText, AllDigits, ExponentOk, NumeralOk, IsDigit, Ends,
      AfterFraction;
    PartsOf(n);
    NotDigits(n, rest);
    FractionReads(t, i, n.fraction, AfterFraction(n, rest));
  }

  lemma NotDigits(n: Numeral, rest: Text)
    requires NumeralOk(n) && Ends(rest)
    ensures var tail := AfterFraction(n, rest); tail != [] ==> !IsDigit(tail[0]) && tail[0] != 0x2e
  {
    hide NumeralText, ExponentText, AllDigits, ExponentOk, NumeralOk, IsDigit, Ends;
    PartsOf(n);
    EndsNumber(rest);
    ExponentStarts(n.exponent, rest);
  }

  lemma WholeFirst(t: Text, i: nat, whole: Text, tail: Text)
    requires i <= |t| && t[i..] == whole + tail && AllDigits(whole) && (tail != [] ==> !IsDigit(tail[0]))
    ensures i + |whole| <= |t| && DigitRun(t, i) == |whole| && t[i..i + |whole|] == whole && t[i + |whole|..] == tail
  {
    hide DigitRun, AllDigits, IsDigit;
    SuffixAfter(t, i, whole, tail);
    RunAt(t, i, whole, tail);
  }

  lemma PartsOf(n: Numeral)
    requires NumeralOk(n)
    ensures n.whole != [] && AllDigits(n.whole) && (n.fraction.Some? ==> n.fraction.value != [] && AllDigits(n.fraction.value))
    ensures n.exponent.Some? ==> ExponentOk(n.exponent.value)
  {
  }

  lemma Whole(a: Text, b: Text)
    ensures (a + b)[..|a|] == a && (a + b)[|a|..] == b
  {
  }

  lemma NumeralSplits(n: Numeral, rest: Text)
    requires NumeralOk(n) && Ends(rest)
    ensures var t, sign := NumeralText(n) + rest, if n.negative then 1 else 0;
            && sign <= |t| && t[sign..] == n.whole + AfterWhole(n, rest) && SignLength(t) == sign
            && (AfterWhole(n, rest) != [] ==> !IsDigit(AfterWhole(n, rest)[0]))
  {
    hide AllDigits;
    var f, e := FractionText(n.fraction), ExponentText(n.exponent);
    var sign := if n.negative then [0x2d] else [];
    assert NumeralText(n) + rest == sign + (n.whole + (f + (e + rest)));
    SignStarts(n, rest);
    EndsNumber(rest);
    ExponentStarts(n.exponent, rest);
    FractionStarts(n.fraction, e + rest);
  }

  lemma SignStarts(n: Numeral, rest: Text)
    requires NumeralOk(n)
    ensures SignLength(NumeralText(n) + rest) == if n.negative then 1 else 0
  {
    assert !n.negative ==> (NumeralText(n) + rest)[0] == n.whole[0];
  }

  lemma EndsNumber(rest: Text)
    requires Ends(rest)
    ensures rest != [] ==> !IsDigit(rest[0]) && rest[0] != 0x65 && rest[0] != 0x45 && rest[0] != 0x2e
  {
  }

  lemma ExponentStarts(e: Option<Exponent>, rest: Text)
    requires (e.Some? ==> ExponentOk(e.value)) && (rest != [] ==> !IsDigit(rest[0]) && rest[0] != 0x2e)
    ensures var t := ExponentText(e) + rest; t != [] ==> !IsDigit(t[0]) && t[0] != 0x2e
  {
    if e == None {
      assert ExponentText(e) + rest == rest;
    }
  }

  lemma FractionStarts(f: Option<Text>, tail: Text)
    requires tail != [] ==> !IsDigit(tail[0])
    ensures var t := FractionText(f) + tail; t != [] ==> !IsDigit(t[0])
  {
    if f == None {
      assert FractionText(f) + tail == tail;
    }
  }

  lemma NumeralReads(n: Numeral, rest: Text)
    requires NumeralOk(n) && Ends(rest)
    ensures ReadNumber(NumeralText(n) + rest) == Ok(Parsed(NumeralValue(n), rest))
  {
    hide DigitRun, FractionEnd, ExponentEnd, NumeralText, Decimals, DigitsValue, SignLength, Ends;
    NumeralParts(n, rest);
    Whole(NumeralText(n), rest);
    DigitsAreDecimals(n.whole);
    NoTail(n);
  }

  /** Only an integer ends with its whole part. */
  lemma NoTail(n: Numeral)
    requires NumeralOk(n)
    ensures |FractionText(n.fraction)| + |ExponentText(n.exponent)| == 0 <==> n.fraction == None && n.exponent == None
    ensures |NumeralText(n)| == (if n.negative then 1 else 0) + |n.whole| + |FractionText(n.fraction)| + |ExponentText(n.exponent)|
  {
  }

  lemma Cut(t: Text, i: nat, from: nat, end: nat)
    requires i < from <= end <= |t|
    ensures t[i..end] == [t[i]] + (t[i + 1..from] + t[from..end]) && t[i..end] == [t[i]] + t[i + 1..end]
  {
  }

  lemma FractionSpells(t: Text, i: nat) returns (f: Option<Text>)
    requires i <= |t| && FractionEnd(t, i).Ok?
    ensures (f.Some? ==> f.value != [] && AllDigits(f.value)) && t[i..FractionEnd(t, i).value] == FractionText(f)
  {
    hide DigitRun;
    f := None;
    if At(t, i) == Some(0x2e) {
      var end := FractionEnd(t, i).value;
      f := Some(t[i + 1..end]);
      Cut(t, i, i + 1, end);
    }
  }

  lemma ExponentSpells(t: Text, i: nat) returns (e: Option<Exponent>)
    requires i <= |t| && ExponentEnd(t, i).Ok?
    ensures (e.Some? ==> ExponentOk(e.value)) && t[i..ExponentEnd(t, i).value] == ExponentText(e)
  {
    hide DigitRun;
    e := None;
    if At(t, i) == Some(0x65) || At(t, i) == Some(0x45) {
      var end := ExponentEnd(t, i).value;
      var from := if At(t, i + 1) == Some(0x2b) || At(t, i + 1) == Some(0x2d) then i + 2 else i + 1;
      e := Some(Exponent(t[i], t[i + 1..from], t[from..end]));
      Cut(t, i, from, end);
    }
  }

  /** Four slices of a prefix. */
  lemma Slices(t: Text, a: nat, b: nat, c: nat, d: nat)
    requires a <= b <= c <= d <= |t|
    ensures t[..d] == t[..a] + (t[a..b] + (t[b..c] + t[c..d])) && t == t[..d] + t[d..]
  {
  }

  /** Every number that reads is a numeral. */
  lemma NumberSpells(t: Text) returns (n: Numeral)
    requires ReadNumber(t).Ok?
    ensures NumeralOk(n) && NumeralValue(n) == ReadNumber(t).value.value && t == NumeralText(n) + ReadNumber(t).value.rest
  {
    hide DigitRun, FractionEnd, ExponentEnd, Decimals, DigitsValue, FractionText, ExponentText, ExponentOk, NumeralValue, SignLength,
      IntegerValue, NumeralText, NumeralOk, AllDigits;
    var sign := SignLength(t);
    var whole := sign + DigitRun(t, sign);
    var fraction := FractionEnd(t, whole).value;
    var end := ExponentEnd(t, fraction).value;
    var f := FractionSpells(t, whole);
    var e := ExponentSpells(t, fraction);
    n := Numeral(sign == 1, t[sign..whole], f, e);
    DigitsBetween(t, sign);
    PartsSpell(t, n, sign, whole, fraction, end);
    assert NumeralOk(n) by { PartsOk(n); }
    DigitsAreDecimals(n.whole);
    NoTail(n);
    NumberRead(t, n, sign, whole, fraction, end);
  }

  lemma DigitsBetween(t: Text, i: nat)
    requires i <= |t|
    ensures AllDigits(t[i..i + DigitRun(t, i)])
  {
    hide DigitRun;
    var digits := t[i..i + DigitRun(t, i)];
    forall k | 0 <= k < |digits|
      ensures IsDigit(digits[k])
    {
      assert IsDigit(t[i + k]);
    }
  }

  lemma PartsOk(n: Numeral)
    requires n.whole != [] && AllDigits(n.whole) && (n.fraction.Some? ==> n.fraction.value != [] && AllDigits(n.fraction.value))
    requires (n.exponent.Some? ==> ExponentOk(n.exponent.value)) && |NumeralText(n)| <= 400
    ensures NumeralOk(n)
  {
    hide AllDigits, ExponentOk, NumeralText;
  }

  lemma PartsSpell(t: Text, n: Numeral, sign: nat, whole: nat, fraction: nat, end: nat)
    requires sign == SignLength(t) && sign <= whole <= fraction <= end <= |t|
    requires n.negative == (sign == 1) && n.whole == t[sign..whole]
    requires FractionText(n.fraction) == t[whole..fraction] && ExponentText(n.exponent) == t[fraction..end]
    ensures NumeralText(n) == t[..end] && t == t[..end] + t[end..] && |NumeralText(n)| == end
  {
    hide FractionText, ExponentText, SignLength;
    Slices(t, sign, whole, fraction, end);
    SignSpells(t);
  }

  lemma SignSpells(t: Text)
    ensures SignLength(t) <= |t| && t[..SignLength(t)] == if SignLength(t) == 1 then [0x2d] else []
  {
  }

  /** What the reader makes of the parts of a number. */
  lemma NumberRead(t: Text, n: Numeral, sign: nat, whole: nat, fraction: nat, end: nat)
    requires sign == SignLength(t) <= |t| && whole == sign + DigitRun(t, sign) && FractionEnd(t, whole) == Ok(fraction)
    requires ExponentEnd(t, fraction) == Ok(end) && ReadNumber(t).Ok?
    requires n.negative == (sign == 1) && n.whole == t[sign..whole] && NumeralText(n) == t[..end] && NumeralOk(n)
    requires end == whole <==> n.fraction == None && n.exponent == None
    requires DigitsValue(n.whole) == Decimals(n.whole)
    ensures NumeralValue(n) == ReadNumber(t).value.value && ReadNumber(t).value.rest == t[end..]
  {
    hide DigitRun, FractionEnd, ExponentEnd, Decimals, DigitsValue, NumeralText, NumeralOk, SignLength;
  }

  // ---------------------------------------------------------------- objects

  /** Members stored one after the other. */
  function StoreAll(members: seq<Member>, more: seq<Member>): seq<Member>
    decreases |more|
  {
    if more == [] then members else StoreAll(Put(members, more[0]), more[1..])
  }

  /** A stored member with a first one set apart. */
  lemma {:induction false} StoreApart(m: Member, members: seq<Member>, more: seq<Member>)
    requires forall i | 0 <= i < |members| :: members[i].key != m.key
    ensures StoreAll([m] + members, more) == [Member(m.key, LastOf(more, m.key, m.value))] + StoreAll(members, Without(more, m.key))
    decreases |more|
  {
    hide Put;
    if more != [] {
      var x, others := more[0], more[1..];
      if x.key == m.key {
        assert Put([m] + members, x) == [x] + members by { PutFirst(m, members, x); }
        StoreApart(x, members, others);
        assert Without(more, m.key) == Without(others, m.key);
      } else {
        assert Put([m] + members, x) == [m] + Put(members, x) by { PutLater(m, members, x); }
        PutKeys(members, x, m.key);
        StoreApart(m, Put(members, x), others);
        assert Without(more, m.key) == [x] + Without(others, m.key);
        assert ([x] + Without(others, m.key))[1..] == Without(others, m.key);
      }
    }
  }

  lemma PutFirst(m: Member, members: seq<Member>, x: Member)
    requires x.key == m.key
    ensures Put([m] + members, x) == [x] + members
  {
    assert ([m] + members)[1..] == members;
  }

  lemma PutLater(m: Member, members: seq<Member>, x: Member)
    requires x.key != m.key
    ensures Put([m] + members, x) == [m] + Put(members, x)
  {
    assert ([m] + members)[1..] == members;
  }

  lemma {:induction false} PutKeys(members: seq<Member>, x: Member, key: Text)
    requires x.key != key && forall i | 0 <= i < |members| :: members[i].key != key
    ensures forall i | 0 <= i < |Put(members, x)| :: Put(members, x)[i].key != key
  {
    if members != [] && members[0].key != x.key {
      PutKeys(members[1..], x, key);
    }
  }

  /** Storing members one by one keeps each key where it first stands, with its last value. */
  lemma {:induction false} StoredIsKept(members: seq<Member>)
    ensures StoreAll([], members) == Kept(members)
    decreases |members|
  {
    if members != [] {
      var m, others := members[0], members[1..];
      assert [m] + [] == [m];
      StoreApart(m, [], others);
      StoredIsKept(Without(others, m.key));
    }
  }

  // ---------------------------------------------------------------- every document reads

  lemma BlankEnds(b: Text, rest: Text)
    requires Blank(b) && Ends(rest)
    ensures Ends(b + rest)
  {
    if b == [] {
      assert b + rest == rest;
    }
  }

  /** Leading blanks make no difference. */
  lemma ReadAfterSkip(t: Text, depth: nat)
    ensures ReadValue(Skip(t), depth) == ReadValue(t, depth)
    ensures ReadMember(Skip(t), depth) == ReadMember(t, depth)
  {
    hide ReadItems, ReadMembers, ReadScalar, ReadString;
    assert Skip(Skip(t)) == Skip(t);
  }

  lemma ItemsAfterSkip(t: Text, depth: nat, before: seq<Value>)
    ensures ReadItems(Skip(t), depth, before) == ReadItems(t, depth, before)
  {
    hide ReadValue;
    ReadAfterSkip(t, depth + 1);
  }

  lemma MembersAfterSkip(t: Text, depth: nat, before: seq<Member>)
    ensures ReadMembers(Skip(t), depth, before) == ReadMembers(t, depth, before)
  {
    hide ReadMember;
    ReadAfterSkip(t, depth);
  }

  /** A document starts with none of the characters that the reader skips or takes for an end. */
  lemma DocHead(d: Doc, rest: Text)
    requires DocOk(d)
    ensures Spell(d, rest) != []
    ensures var c := Spell(d, rest)[0]; !IsSpace(c) && c != 0x5d && c != 0x7d
  {
    hide SpellItems, SpellEntries, CharsText;
    match d {
      case NumberDoc(n) => NumeralHead(n, rest);
      case _ =>
    }
  }

  lemma NumeralHead(n: Numeral, rest: Text)
    requires NumeralOk(n)
    ensures NumeralText(n) != [] && (NumeralText(n)[0] == 0x2d || IsDigit(NumeralText(n)[0]))
    ensures (NumeralText(n) + rest)[0] == NumeralText(n)[0]
  {
  }

  lemma ScalarReads(d: Doc, rest: Text)
    requires DocOk(d) && Ends(rest) && !d.ArrayDoc? && !d.ObjectDoc?
    ensures ReadScalar(Spell(d, rest)) == Ok(Parsed(ValueOf(d), rest))
  {
    hide ReadString, ReadNumber, CharsText, NumeralText, NumeralOk, Ends;
    match d {
      case NullDoc => WordReads(NULL, rest);
      case BoolDoc(b) => WordReads(if b then TRUE else FALSE, rest);
      case NumberDoc(n) =>
        NumeralReads(n, rest);
        NumeralHead(n, rest);
      case StringDoc(chars) =>
        StringReads(chars, rest);
        assert ([0x22] + (CharsText(chars) + ([0x22] + rest)))[1..] == CharsText(chars) + ([0x22] + rest);
    }
  }

  lemma {:induction false} DocReads(b: Text, d: Doc, rest: Text, depth: nat)
    requires Blank(b) && DocOk(d) && Ends(rest)
    ensures ReadValue(b + Spell(d, rest), depth) == Within(depth + Nesting(d) <= 256, ValueOf(d), rest)
    decreases d, 1
  {
    hide ReadString, ReadNumber, ReadItems, ReadMembers, ReadScalar, SpellItems, SpellEntries, Ends;
    if depth <= MAX_DEPTH {
      DocHead(d, rest);
      SkipsBlank(b, Spell(d, rest));
      match d {
        case ArrayDoc(blank, items) => ArrayReads(b, blank, items, rest, depth);
        case ObjectDoc(blank, entries) => ObjectReads(b, blank, entries, rest, depth);
        case _ =>
          ScalarReads(d, rest);
          ScalarHead(d, rest);
      }
    }
  }

  lemma ScalarHead(d: Doc, rest: Text)
    requires DocOk(d) && !d.ArrayDoc? && !d.ObjectDoc?
    ensures At(Spell(d, rest), 0) != Some(0x7b) && At(Spell(d, rest), 0) != Some(0x5b)
  {
    hide NumeralText, NumeralOk, CharsText;
    match d {
      case NumberDoc(n) => NumeralHead(n, rest);
      case _ =>
    }
  }

  lemma {:induction false} ArrayReads(b: Text, blank: Text, items: seq<Item>, rest: Text, depth: nat)
    requires Blank(b) && Blank(blank) && ItemsOk(items) && Ends(rest) && depth <= MAX_DEPTH
    requires Skip(b + Spell(ArrayDoc(blank, items), rest)) == Spell(ArrayDoc(blank, items), rest)
    ensures ReadValue(b + Spell(ArrayDoc(blank, items), rest), depth)
         == Within(depth + Nesting(ArrayDoc(blank, items)) <= 256, ValueOf(ArrayDoc(blank, items)), rest)
    decreases items, 2
  {
    hide ReadString, ReadNumber, ReadItems, ReadMembers, ReadScalar, SpellItems, Ends;
    var s := Spell(ArrayDoc(blank, items), rest);
    if items == [] {
      assert s[1..] == blank + ([0x5d] + rest);
      SkipsBlank(blank, [0x5d] + rest);
    } else {
      var inner := SpellItems(items, rest);
      assert s[1..] == inner;
      ItemsHead(items, rest);
      ItemsAfterSkip(inner, depth, []);
      ItemsRead(items, [], rest, depth);
      assert [] + ItemValues(items) == ItemValues(items);
    }
  }

  lemma ItemsHead(items: seq<Item>, rest: Text)
    requires ItemsOk(items) && items != []
    ensures At(Skip(SpellItems(items, rest)), 0).Some? && At(Skip(SpellItems(items, rest)), 0) != Some(0x5d)
  {
    hide Spell;
    var i := items[0];
    var after := if |items| == 1 then [0x5d] + rest else [0x2c] + SpellItems(items[1..], rest);
    DocHead(i.doc, i.after + after);
    SkipsBlank(i.before, Spell(i.doc, i.after + after));
  }

  lemma {:induction false} ItemsRead(items: seq<Item>, before: seq<Value>, rest: Text, depth: nat)
    requires ItemsOk(items) && items != [] && depth <= MAX_DEPTH
    ensures ReadItems(SpellItems(items, rest), depth, before)
         == Within(depth + 1 + ItemsNesting(items) <= 256, before + ItemValues(items), rest)
    decreases items, 1
  {
    hide ReadValue, Spell, Nesting, ValueOf, DocOk, SpellItems;
    var i, tail := items[0], items[1..];
    var after := if tail == [] then [0x5d] + rest else [0x2c] + SpellItems(tail, rest);
    assert SpellItems(items, rest) == i.before + Spell(i.doc, i.after + after) by { ItemsSplit(items, rest); }
    BlankEnds(i.after, after);
    DocReads(i.before, i.doc, i.after + after, depth + 1);
    SkipsBlank(i.after, after);
    assert ItemsNesting(items) == Max(Nesting(i.doc), ItemsNesting(tail));
    if tail == [] {
      assert after[1..] == rest;
      assert ItemValues(items) == [ValueOf(i.doc)];
    } else {
      assert after[1..] == SpellItems(tail, rest);
      ItemsRead(tail, before + [ValueOf(i.doc)], rest, depth);
      assert before + [ValueOf(i.doc)] + ItemValues(tail) == before + ItemValues(items);
    }
  }

  lemma ItemsSplit(items: seq<Item>, rest: Text)
    requires items != []
    ensures SpellItems(items, rest)
         == items[0].before + Spell(items[0].doc, items[0].after + if items[1..] == [] then [0x5d] + rest
                                                                   else [0x2c] + SpellItems(items[1..], rest))
  {
    hide Spell;
  }

  lemma {:induction false} ObjectReads(b: Text, blank: Text, entries: seq<Entry>, rest: Text, depth: nat)
    requires Blank(b) && Blank(blank) && EntriesOk(entries) && Ends(rest) && depth <= MAX_DEPTH
    requires Skip(b + Spell(ObjectDoc(blank, entries), rest)) == Spell(ObjectDoc(blank, entries), rest)
    ensures ReadValue(b + Spell(ObjectDoc(blank, entries), rest), depth)
         == Within(depth + Nesting(ObjectDoc(blank, entries)) <= 256, ValueOf(ObjectDoc(blank, entries)), rest)
    decreases entries, 2
  {
    hide ReadString, ReadNumber, ReadItems, ReadMembers, ReadScalar, SpellEntries, Ends, Kept;
    var s := Spell(ObjectDoc(blank, entries), rest);
    if entries == [] {
      assert s[1..] == blank + ([0x7d] + rest);
      SkipsBlank(blank, [0x7d] + rest);
      assert Kept(EntryMembers(entries)) == [] by { NothingKept(); }
    } else {
      var inner := SpellEntries(entries, rest);
      assert s[1..] == inner;
      EntriesHead(entries, rest);
      MembersAfterSkip(inner, depth, []);
      EntriesRead(entries, [], rest, depth);
      StoredIsKept(EntryMembers(entries));
    }
  }

  lemma NothingKept()
    ensures Kept([]) == []
  {
  }

  lemma EntriesHead(entries: seq<Entry>, rest: Text)
    requires EntriesOk(entries) && entries != []
    ensures At(Skip(SpellEntries(entries, rest)), 0) == Some(0x22)
  {
    hide Spell, CharsText;
    var e := entries[0];
    EntriesSplit(entries, rest);
    var after := if entries[1..] == [] then [0x7d] + rest else [0x2c] + SpellEntries(entries[1..], rest);
    SkipsBlank(e.before, [0x22] + (CharsText(e.key) + ([0x22] + (e.gap + ([0x3a] + SpellItem(e.item, after))))));
  }

  lemma EntriesSplit(entries: seq<Entry>, rest: Text)
    requires entries != []
    ensures SpellEntries(entries, rest)
         == SpellEntry(entries[0], if entries[1..] == [] then [0x7d] + rest else [0x2c] + SpellEntries(entries[1..], rest))
  {
    hide Spell, CharsText;
  }

  /** Reading one entry, up to what follows its element. */
  lemma EntryReads(e: Entry, after: Text, depth: nat)
    requires Keyed(e) && DocOk(e.item.doc)
    requires ReadValue(e.item.before + Spell(e.item.doc, e.item.after + after), depth + 1)
          == Within(depth + 1 + Nesting(e.item.doc) <= 256, ValueOf(e.item.doc), e.item.after + after)
    ensures ReadMember(SpellEntry(e, after), depth)
         == Within(depth + 1 + Nesting(e.item.doc) <= 256, Member(Units(e.key), ValueOf(e.item.doc)), e.item.after + after)
  {
    hide ReadValue, ReadString, Spell, Nesting, ValueOf, CharsText, DocOk, CharsOk;
    var tail := [0x3a] + (e.item.before + Spell(e.item.doc, e.item.after + after));
    var body := CharsText(e.key) + ([0x22] + (e.gap + tail));
    SkipsBlank(e.before, [0x22] + body);
    assert ([0x22] + body)[1..] == body;
    StringReads(e.key, e.gap + tail);
    SkipsBlank(e.gap, tail);
    assert tail[1..] == e.item.before + Spell(e.item.doc, e.item.after + after);
  }

  lemma {:induction false} EntriesRead(entries: seq<Entry>, before: seq<Member>, rest: Text, depth: nat)
    requires EntriesOk(entries) && entries != [] && depth <= MAX_DEPTH
    ensures ReadMembers(SpellEntries(entries, rest), depth, before)
         == Within(depth + 1 + EntriesNesting(entries) <= 256, StoreAll(before, EntryMembers(entries)), rest)
    decreases entries, 1
  {
    hide ReadValue, ReadMember, Spell, SpellEntry, Nesting, ValueOf, DocOk, SpellEntries, Put, Units, CharsOk;
    var e, tail := entries[0], entries[1..];
    var after := if tail == [] then [0x7d] + rest else [0x2c] + SpellEntries(tail, rest);
    var stored := Member(Units(e.key), ValueOf(e.item.doc));
    EntriesSplit(entries, rest);
    BlankEnds(e.item.after, after);
    DocReads(e.item.before, e.item.doc, e.item.after + after, depth + 1);
    EntryReads(e, after, depth);
    SkipsBlank(e.item.after, after);
    assert EntriesNesting(entries) == Max(Nesting(e.item.doc), EntriesNesting(tail));
    assert EntryMembers(entries) == [stored] + EntryMembers(tail);
    assert StoreAll(before, EntryMembers(entries)) == StoreAll(Put(before, stored), EntryMembers(tail));
    if tail == [] {
      assert after[1..] == rest;
    } else {
      assert after[1..] == SpellEntries(tail, rest);
      EntriesRead(tail, Put(before, stored), rest, depth);
    }
  }

  // ---------------------------------------------------------------- whatever reads is a document

  lemma ScalarSpells(s: Text) returns (d: Doc)
    requires ReadScalar(s).Ok?
    ensures DocOk(d) && Nesting(d) == 0 && ValueOf(d) == ReadScalar(s).value.value && s == Spell(d, ReadScalar(s).value.rest)
  {
    hide ReadString, ReadNumber, CharsText, NumeralText, NumeralOk, NumeralValue;
    if At(s, 0) == Some(0x22) {
      var chars := StringSpells(s[1..]);
      d := StringDoc(chars);
      assert s == [0x22] + s[1..];
    } else if StartsWith(s, TRUE) {
      d := BoolDoc(true);
      assert s == s[..4] + s[4..];
    } else if StartsWith(s, FALSE) {
      d := BoolDoc(false);
      assert s == s[..5] + s[5..];
    } else if StartsWith(s, NULL) {
      d := NullDoc;
      assert s == s[..4] + s[4..];
    } else {
      var n := NumberSpells(s);
      d := NumberDoc(n);
    }
  }

  lemma HeadSplits(t: Text, u: Unit)
    requires At(t, 0) == Some(u)
    ensures t != [] && t == [u] + t[1..]
  {
  }

  /** Every value that reads is a document after some blanks. */
  lemma {:induction false} ValueSpells(t: Text, depth: nat) returns (b: Text, d: Doc)
    requires ReadValue(t, depth).Ok?
    ensures Blank(b) && DocOk(d) && depth + Nesting(d) <= 256
    ensures ValueOf(d) == ReadValue(t, depth).value.value && t == b + Spell(d, ReadValue(t, depth).value.rest)
    decreases |t|, 3
  {
    hide ReadItems, ReadMembers, ReadScalar, SpellItems, SpellEntries, Skip, Kept, Blank;
    b := SkipSplits(t);
    var s := Skip(t);
    if At(s, 0) == Some(0x7b) {
      d := ObjectSpells(s, depth);
    } else if At(s, 0) == Some(0x5b) {
      d := ArraySpells(s, depth);
    } else {
      d := ScalarSpells(s);
    }
  }

  lemma {:induction false} ArraySpells(s: Text, depth: nat) returns (d: Doc)
    requires At(s, 0) == Some(0x5b) && depth <= MAX_DEPTH
    requires At(Skip(s[1..]), 0) == Some(0x5d) || ReadItems(Skip(s[1..]), depth, []).Ok?
    ensures DocOk(d) && depth + Nesting(d) <= 256
    ensures var inner := Skip(s[1..]);
            if At(inner, 0) == Some(0x5d) then ValueOf(d) == Arr([]) && s == Spell(d, inner[1..])
            else ValueOf(d) == Arr(ReadItems(inner, depth, []).value.value) && s == Spell(d, ReadItems(inner, depth, []).value.rest)
    decreases |s|, 2
  {
    hide ReadItems, SpellItems, Skip, Blank;
    var inner := Skip(s[1..]);
    HeadSplits(s, 0x5b);
    if At(inner, 0) == Some(0x5d) {
      var blank := SkipSplits(s[1..]);
      HeadSplits(inner, 0x5d);
      d := ArrayDoc(blank, []);
      assert ItemValues([]) == [];
    } else {
      ItemsAfterSkip(s[1..], depth, []);
      var items := ItemsSpell(s[1..], depth, []);
      d := ArrayDoc([], items);
      assert [] + ItemValues(items) == ItemValues(items);
      NoBlank();
    }
  }

  lemma NoBlank()
    ensures Blank([])
  {
  }

  lemma {:induction false} ItemsSpell(t: Text, depth: nat, before: seq<Value>) returns (items: seq<Item>)
    requires ReadItems(t, depth, before).Ok?
    ensures items != [] && ItemsOk(items) && depth + 1 + ItemsNesting(items) <= 256
    ensures ReadItems(t, depth, before).value.value == before + ItemValues(items)
    ensures t == SpellItems(items, ReadItems(t, depth, before).value.rest)
    decreases |t|, 4
  {
    hide ReadValue, Spell, Skip, DocOk, ValueOf, Nesting, Blank, SpellItems, At;
    var b, d := ValueSpells(t, depth + 1);
    var p := ReadValue(t, depth + 1).value;
    var a := SkipSplits(p.rest);
    var s := Skip(p.rest);
    if At(s, 0) == Some(0x2c) {
      HeadSplits(s, 0x2c);
      var more := ItemsSpell(s[1..], depth, before + [p.value]);
      items := [Item(b, d, a)] + more;
      assert items[1..] == more;
      ItemsSplit(items, ReadItems(t, depth, before).value.rest);
      assert before + [p.value] + ItemValues(more) == before + ItemValues(items);
    } else {
      HeadSplits(s, 0x5d);
      items := [Item(b, d, a)];
      assert items[1..] == [];
      ItemsSplit(items, s[1..]);
      assert ItemValues(items) == [p.value];
    }
  }

  lemma {:induction false} ObjectSpells(s: Text, depth: nat) returns (d: Doc)
    requires At(s, 0) == Some(0x7b) && depth <= MAX_DEPTH
    requires At(Skip(s[1..]), 0) == Some(0x7d) || ReadMembers(Skip(s[1..]), depth, []).Ok?
    ensures DocOk(d) && depth + Nesting(d) <= 256
    ensures var inner := Skip(s[1..]);
            if At(inner, 0) == Some(0x7d) then ValueOf(d) == Obj([]) && s == Spell(d, inner[1..])
            else ValueOf(d) == Obj(ReadMembers(inner, depth, []).value.value)
                 && s == Spell(d, ReadMembers(inner, depth, []).value.rest)
    decreases |s|, 2
  {
    hide ReadMembers, SpellEntries, Skip, Kept, Blank;
    var inner := Skip(s[1..]);
    HeadSplits(s, 0x7b);
    if At(inner, 0) == Some(0x7d) {
      var blank := SkipSplits(s[1..]);
      HeadSplits(inner, 0x7d);
      d := ObjectDoc(blank, []);
      assert EntryMembers([]) == [];
      NothingKept();
    } else {
      MembersAfterSkip(s[1..], depth, []);
      var entries := MembersSpell(s[1..], depth, []);
      d := ObjectDoc([], entries);
      StoredIsKept(EntryMembers(entries));
      NoBlank();
    }
  }

  /** Every member that reads is an entry, but for the blanks after it. */
  lemma {:induction false} MemberSpells(t: Text, depth: nat) returns (e: Entry)
    requires ReadMember(t, depth).Ok?
    ensures Keyed(e) && DocOk(e.item.doc) && e.item.after == [] && depth + 1 + Nesting(e.item.doc) <= 256
    ensures ReadMember(t, depth).value.value == Member(Units(e.key), ValueOf(e.item.doc))
    ensures t == SpellEntry(e, ReadMember(t, depth).value.rest)
    decreases |t|, 4
  {
    hide ReadValue, ReadString, Spell, Skip, DocOk, ValueOf, Nesting, CharsText, Units, CharsOk, Blank;
    var before := SkipSplits(t);
    var s := Skip(t);
    HeadSplits(s, 0x22);
    var key := StringSpells(s[1..]);
    var k := ReadString(s[1..]).value;
    var gap := SkipSplits(k.rest);
    var colon := Skip(k.rest);
    HeadSplits(colon, 0x3a);
    var b, d := ValueSpells(colon[1..], depth + 1);
    e := Entry(before, key, gap, Item(b, d, []));
    NoBlank();
    var rest := ReadMember(t, depth).value.rest;
    assert [] + rest == rest;
  }

  /** Blanks after an element belong to its entry. */
  lemma AfterEntry(e: Entry, after: Text, rest: Text)
    requires e.item.after == []
    ensures SpellEntry(e.(item := e.item.(after := after)), rest) == SpellEntry(e, after + rest)
  {
    hide Spell, SpellItem, CharsText;
    AfterItem(e.item, after, rest);
  }

  lemma AfterItem(i: Item, after: Text, rest: Text)
    requires i.after == []
    ensures SpellItem(i.(after := after), rest) == SpellItem(i, after + rest)
  {
    hide Spell;
    assert [] + (after + rest) == after + rest;
  }

  lemma {:induction false} MembersSpell(t: Text, depth: nat, before: seq<Member>) returns (entries: seq<Entry>)
    requires ReadMembers(t, depth, before).Ok?
    ensures entries != [] && EntriesOk(entries) && depth + 1 + EntriesNesting(entries) <= 256
    ensures ReadMembers(t, depth, before).value.value == StoreAll(before, EntryMembers(entries))
    ensures t == SpellEntries(entries, ReadMembers(t, depth, before).value.rest)
    decreases |t|, 5
  {
    hide ReadMember, SpellEntry, Skip, DocOk, ValueOf, Nesting, Blank, Units, CharsOk, Put;
    var e := MemberSpells(t, depth);
    var p := ReadMember(t, depth).value;
    var a := SkipSplits(p.rest);
    var s := Skip(p.rest);
    var entry := e.(item := e.item.(after := a));
    AfterEntry(e, a, s);
    if At(s, 0) == Some(0x2c) {
      var more := MembersSpell(s[1..], depth, Put(before, p.value));
      HeadSplits(s, 0x2c);
      entries := [entry] + more;
      assert entries[1..] == more;
      assert EntryMembers(entries) == [p.value] + EntryMembers(more);
      assert EntryMembers(entries)[1..] == EntryMembers(more);
    } else {
      HeadSplits(s, 0x7d);
      entries := [entry];
      assert entries[1..] == [];
      assert EntryMembers(entries) == [p.value];
      assert EntryMembers(entries)[1..] == [];
    }
  }

  // ---------------------------------------------------------------- the parser and the grammar

  /** A text that spells a value: a document that nests at most 256 deep, with blanks around it. */
  ghost predicate Documents(t: Text, v: Value) {
    exists before, d: Doc, after :: DocumentIs(t, v, before, d, after)
  }

  predicate DocumentIs(t: Text, v: Value, before: Text, d: Doc, after: Text) {
    Blank(before) && Blank(after) && DocOk(d) && Nesting(d) <= 256 && t == before + Spell(d, after) && ValueOf(d) == v
  }

  /** The parser takes exactly the texts of documents, and yields their values. */
  lemma ParsesExactly(t: Text, v: Value)
    ensures ParseJson(t) == Ok(v) <==> Documents(t, v)
  {
    hide ReadValue, Skip, Spell, DocOk, ValueOf, Nesting, Blank;
    if ParseJson(t) == Ok(v) {
      var b, d := ValueSpells(t, 0);
      var after := ReadValue(t, 0).value.rest;
      var blank := SkipSplits(after);
      assert blank + [] == blank;
      assert DocumentIs(t, v, b, d, after);
    }
    if Documents(t, v) {
      var before, d, after :| DocumentIs(t, v, before, d, after);
      BlankEndsText(after);
      DocReads(before, d, after, 0);
      SkipsBlank(after, []);
      assert after + [] == after;
    }
  }

  lemma BlankEndsText(b: Text)
    requires Blank(b)
    ensures Ends(b)
  {
  }
}
